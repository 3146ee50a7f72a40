/** What a run reads off its market and its log, in terms of the candles and fills themselves. */
module RunSnapshot {
  import opened Prelude
  import opened StableSort
  import opened Ledger
  import opened Risk
  import opened PaperExecution
  import opened Gate
  import opened TradingLog
  import opened PaperCycle
  import opened CycleTrace
  import opened Runner
  import opened ClosedLoop
  import opened LoopBounds

  // ----- the market -----

  /** Turn n brings the last candle of its symbol. */
  ghost predicate LastCandle(turns: seq<SymbolRun>, n: nat) {
    && n < |turns| && turns[n].candle.Some?
    && forall m :: n < m < |turns| && turns[m].symbol == turns[n].symbol ==> turns[m].candle.None?
  }

  ghost predicate FirstCandle(turns: seq<SymbolRun>, n: nat) {
    n < |turns| && turns[n].candle.Some? && forall m :: 0 <= m < n ==> turns[m].candle.None?
  }

  lemma {:induction false} LatestIs(turns: seq<SymbolRun>, s: string)
    ensures s in Latest(turns)
            ==> exists n: nat :: LastCandle(turns, n) && turns[n].symbol == s
                                 && Latest(turns)[s] == turns[n].candle.value
    ensures s !in Latest(turns)
       <==> forall n :: 0 <= n < |turns| && turns[n].symbol == s ==> turns[n].candle.None?
  {
    if |turns| != 0 {
      var k := |turns| - 1;
      var before, x := turns[..k], turns[k];
      LatestIs(before, s);
      if x.candle.Some? && x.symbol == s {
        assert LastCandle(turns, k);
      } else if s in Latest(before) {
        var n: nat :| LastCandle(before, n) && turns[n].symbol == s && Latest(before)[s] == turns[n].candle.value;
        assert LastCandle(turns, n);
      }
    }
  }

  lemma OneLast(turns: seq<SymbolRun>, n: nat, m: nat)
    requires LastCandle(turns, n) && LastCandle(turns, m) && turns[n].symbol == turns[m].symbol
    ensures n == m
  {}

  /** A quoted symbol has a price, the close of its last candle. */
  lemma PriceIs(r: Run, n: nat)
    requires LastCandle(r.symbols, n)
    ensures r.symbols[n].symbol in PricesOf(r) && PricesOf(r)[r.symbols[n].symbol] == r.symbols[n].candle.value.close
  {
    var s := r.symbols[n].symbol;
    LatestIs(r.symbols, s);
    var m: nat :| LastCandle(r.symbols, m) && r.symbols[m].symbol == s
                  && Latest(r.symbols)[s] == r.symbols[m].candle.value;
    OneLast(r.symbols, n, m);
  }

  /** No other symbol has. */
  lemma Unpriced(r: Run, s: string)
    ensures s !in PricesOf(r)
       <==> forall n :: 0 <= n < |r.symbols| && r.symbols[n].symbol == s ==> r.symbols[n].candle.None?
  {
    LatestIs(r.symbols, s);
  }

  lemma {:induction false} FirstQuotedIs(turns: seq<SymbolRun>)
    ensures FirstQuoted(turns) == None <==> forall n :: 0 <= n < |turns| ==> turns[n].candle.None?
    ensures FirstQuoted(turns) != None
            ==> exists n: nat :: FirstCandle(turns, n) && FirstQuoted(turns) == Some(turns[n].symbol)
  {
    if |turns| != 0 {
      var k := |turns| - 1;
      var before := turns[..k];
      FirstQuotedIs(before);
      if FirstQuoted(before) != None {
        var n: nat :| FirstCandle(before, n) && FirstQuoted(before) == Some(before[n].symbol);
        assert FirstCandle(turns, n);
      } else if turns[k].candle.Some? {
        assert FirstCandle(turns, k);
      }
    }
  }

  /** Turn f brings the first candle of all, and turn l the last candle of that symbol, this many seconds old. */
  ghost predicate Decides(r: Run, f: nat, l: nat, age: int) {
    && FirstCandle(r.symbols, f) && LastCandle(r.symbols, l) && r.symbols[l].symbol == r.symbols[f].symbol
    && age == r.now - r.symbols[l].candle.value.openTime
  }

  lemma OneDecides(r: Run, f: nat, l: nat, age: int, f2: nat, l2: nat, age2: int)
    requires Decides(r, f, l, age) && Decides(r, f2, l2, age2)
    ensures f == f2 && l == l2 && age == age2
  {
  }

  /** The first quoted symbol alone decides: the market is fresh exactly if its last candle is younger than half an
      hour. */
  lemma FreshIff(r: Run)
    ensures IsFresh(r) <==> exists f: nat, l: nat, age: int :: Decides(r, f, l, age) && age < 1800
  {
    FirstQuotedIs(r.symbols);
    if FirstQuoted(r.symbols) != None {
      var f: nat :| FirstCandle(r.symbols, f) && FirstQuoted(r.symbols) == Some(r.symbols[f].symbol);
      var s := r.symbols[f].symbol;
      LatestIs(r.symbols, s);
      var l: nat :| LastCandle(r.symbols, l) && r.symbols[l].symbol == s
                    && Latest(r.symbols)[s] == r.symbols[l].candle.value;
      var age := r.now - r.symbols[l].candle.value.openTime;
      assert Decides(r, f, l, age);
      forall f2: nat, l2: nat, age2: int | Decides(r, f2, l2, age2) ensures age2 == age {
        OneDecides(r, f, l, age, f2, l2, age2);
      }
    }
  }

  // ----- the streak -----

  predicate Below(s: string, ps: map<string, Position>, prices: map<string, real>) {
    s in ps && s in prices && prices[s] < ps[s].avg
  }

  /** The last n of these fills, and no more, are of symbols now priced below their average. */
  ghost predicate LosesLast(open: seq<Fill>, ps: map<string, Position>, prices: map<string, real>, n: nat) {
    && n <= |open| && (forall k :: |open| - n <= k < |open| ==> Below(open[k].symbol, ps, prices))
    && (n < |open| ==> !Below(open[|open| - n - 1].symbol, ps, prices))
  }

  lemma OneLosesLast(open: seq<Fill>, ps: map<string, Position>, prices: map<string, real>, n: nat, m: nat)
    requires LosesLast(open, ps, prices, n) && LosesLast(open, ps, prices, m)
    ensures n == m
  {}

  lemma {:induction false} OpenStreak(open: seq<Fill>, ps: map<string, Position>, prices: map<string, real>)
    requires forall k :: 0 <= k < |open| ==> open[k].symbol in ps
    ensures LosesLast(open, ps, prices, LossStreak(open, ps, prices))
  {
    if |open| != 0 { OpenStreak(open[..|open| - 1], ps, prices); }
  }

  /** The streak is the number of newest fills of open positions whose symbol is priced below its average, up to the
      first one that is not. */
  lemma StreakIs(fills: seq<Fill>, ps: map<string, Position>, prices: map<string, real>, n: nat)
    ensures LossStreak(fills, ps, prices) == n <==> LosesLast(Filter(fills, OpenIn(ps)), ps, prices, n)
  {
    var open := Filter(fills, OpenIn(ps));
    FilterSubset(fills, OpenIn(ps));
    forall k | 0 <= k < |open| ensures open[k].symbol in ps { assert open[k] in open; }
    StreakSeesOpenOnly(fills, ps, prices);
    OpenStreak(open, ps, prices);
    if LosesLast(open, ps, prices, n) { OneLosesLast(open, ps, prices, n, LossStreak(fills, ps, prices)); }
  }

  /** The streak of a run counts among the last ten fills. */
  ghost predicate RunStreak(log: seq<Write>, b: Book, r: Run, n: nat) {
    var fills := Chronological(FillsOf(log));
    var ten := if |fills| <= 10 then fills else fills[|fills| - 10..];
    LosesLast(Filter(ten, OpenIn(b.positions)), b.positions, PricesOf(r), n)
  }

  lemma RunStreakIs(g: RunConfig, log: seq<Write>, b: Book, r: Run, s: string, n: nat)
    ensures InputFor(g, log, b, r, s).risk.consecutiveLosses == n <==> RunStreak(log, b, r, n)
  {
    StreakIs(LastFills(Chronological(FillsOf(log))), b.positions, PricesOf(r), n);
  }

  // ----- the orders counted -----

  /** All orders are these older ones and those counted; none counted is older than one that is not. */
  ghost predicate Leaves(all: seq<Order>, older: seq<Order>, counted: seq<Order>) {
    && multiset(all) == multiset(older) + multiset(counted)
    && forall m, n :: 0 <= m < |older| && 0 <= n < |counted| ==> older[m].createdAt <= counted[n].createdAt
  }

  lemma SplitSorted(all: seq<Order>, sorted: seq<Order>, k: nat)
    requires multiset(sorted) == multiset(all) && Ordered(sorted, CreatedAt) && k <= |sorted|
    ensures Leaves(all, sorted[..k], sorted[k..])
  {
    var older, counted := sorted[..k], sorted[k..];
    assert sorted == older + counted;
    forall m, n | 0 <= m < |older| && 0 <= n < |counted| ensures older[m].createdAt <= counted[n].createdAt {
      assert CreatedAt(sorted[m]) <= CreatedAt(sorted[k + n]);
    }
  }

  /** The counters of a run look at the newest thousand orders, or at all if there are fewer. */
  lemma NewestThousand(log: seq<Write>)
    ensures |RecentOrders(log)| <= 1000
    ensures exists older :: Leaves(OrdersOf(log), older, RecentOrders(log))
                            && (older != [] ==> |RecentOrders(log)| == 1000)
  {
    var sorted := Sort(OrdersOf(log), CreatedAt);
    SortCorrect(OrdersOf(log), CreatedAt);
    var k := if |sorted| <= 1000 then 0 else |sorted| - 1000;
    SplitSorted(OrdersOf(log), sorted, k);
    assert RecentOrders(log) == sorted[k..];
  }

  // ----- what a BUY says about the snapshot -----

  /** Fewer than four newest open fills in the red, and a market younger than half an hour. */
  ghost predicate Calm(log: seq<Write>, b: Book, r: Run) {
    && (exists n: nat :: n < 4 && RunStreak(log, b, r, n))
    && (exists f: nat, l: nat, age: int :: Decides(r, f, l, age) && age < 1800)
  }

  lemma BuyIsCalm(g: RunConfig, log: seq<Write>, b: Book, r: Run, x: SymbolRun)
    requires g.cycle.Valid() && EntryBuy(g.cycle, InputFor(g, log, b, r, x.symbol), x.view) != None
    ensures Calm(log, b, r)
  {
    var i := InputFor(g, log, b, r, x.symbol);
    EntryBuyIff(g.cycle, i, x.view);
    RunStreakIs(g, log, b, r, x.symbol, i.risk.consecutiveLosses);
    assert i.risk.dataFresh == IsFresh(r);
    FreshIff(r);
  }

  /** A run that adds a BUY had fewer than four losing fills in a row and a market younger than half an hour, and
      the turn of the BUY passed the AI gate in paper_auto. */
  lemma BuyOfRun(g: RunConfig, log: seq<Write>, r: Run, clock: int, j: nat) returns (m: nat)
    requires g.cycle.Valid() && Healthy(g.initialCash, FillsOf(log), clock) && clock <= r.now && Distinct(r)
    requires |FillsOf(log)| <= j < |FillsOf(RunLog(g, log, r))| && FillsOf(RunLog(g, log, r))[j].side == BUY
    ensures Rebuilt(g, log).Ok? && Calm(Started(log), Rebuilt(g, log).value, r)
    ensures m < |r.symbols| && FillsOf(RunLog(g, log, r))[j].symbol == r.symbols[m].symbol
    ensures var v := r.symbols[m].view;
            v.mode == PaperAuto && v.candidate.Some? && !v.hint.Reject? && v.score >= 50
  {
    m := RunFillsPlanned(g, log, r, clock, j);
    PlannedBuy(g, log, r, j, m);
    var b, x := Rebuilt(g, log).value, r.symbols[m];
    BuyIsCalm(g, Started(log), b, r, x);
    EntryBuyIff(g.cycle, InputFor(g, Started(log), b, r, x.symbol), x.view);
  }

  // ----- the account in the snapshot -----

  /** The equity the checks see is the account's, but never less than the initial cash. */
  lemma EquityFloor(g: RunConfig, log: seq<Write>, b: Book, r: Run, s: string)
    ensures var e, own := InputFor(g, log, b, r, s).risk.equity, Equity(b, PricesOf(r));
            own <= e && g.initialCash <= e && (e == own || e == g.initialCash)
  {}

  /** The two percentages are of that equity, and zero without equity. */
  lemma PercentagesIn(g: RunConfig, log: seq<Write>, b: Book, r: Run, s: string)
    ensures var x := InputFor(g, log, b, r, s).risk;
            && PctIs(x.totalPct, Value(b, PricesOf(r)), x.equity)
            && PctIs(x.symbolPct, SymbolValue(b, s, PricesOf(r)), x.equity)
            && !x.killSwitch && x.openPositions == |b.positions|
  {
    InputFields(g, log, b, r, s);
    PctTimes(Value(b, PricesOf(r)), AccountEquity(g, b, r));
    PctTimes(SymbolValue(b, s, PricesOf(r)), AccountEquity(g, b, r));
  }

  /** The value of a symbol: nothing if it is not held, else at its price, or at its average without one. */
  lemma SymbolValueIs(b: Book, s: string, prices: map<string, real>)
    ensures s !in b.positions ==> SymbolValue(b, s, prices) == 0.0
    ensures s in b.positions && s in prices ==> SymbolValue(b, s, prices) == b.positions[s].qty * prices[s]
    ensures s in b.positions && s !in prices ==> SymbolValue(b, s, prices) == b.positions[s].qty * b.positions[s].avg
  {}

  ghost predicate PctIs(pct: real, value: real, e: real) {
    if e > 0.0 then pct * e == 100.0 * value else pct == 0.0
  }

  lemma PctTimes(value: real, e: real)
    ensures PctIs(Pct(value, e), value, e)
  {
    if e > 0.0 {
      DivMul(value, e);
      assert value / e * 100.0 * e == 100.0 * (value / e * e);
    }
  }

  // ----- the day's baseline -----

  /** The log's newest baseline row, if it has one at all. */
  ghost predicate Newest(log: seq<Write>, n: nat) {
    n < |log| && log[n].BaselineRow? && forall m :: n < m < |log| ==> !log[m].BaselineRow?
  }

  lemma {:induction false} BaselineIs(log: seq<Write>, n: nat)
    requires Newest(log, n)
    ensures LatestBaseline(log) == Some(log[n])
  {
    if n < |log| - 1 { BaselineIs(log[..|log| - 1], n); }
  }

  lemma {:induction false} NoNewest(log: seq<Write>)
    requires forall n: nat :: !Newest(log, n)
    ensures LatestBaseline(log) == None
  {
    if |log| != 0 {
      var k := |log| - 1;
      assert !Newest(log, k);
      forall n: nat ensures !Newest(log[..k], n) { if Newest(log[..k], n) { assert Newest(log, n); } }
      NoNewest(log[..k]);
    }
  }

  /** Days last 86400 seconds, from the epoch on. */
  predicate OnDay(day: int, now: int) { 86400 * day <= now < 86400 * day + 86400 }

  lemma DayIs(day: int, now: int)
    ensures DayOf(now) == day <==> OnDay(day, now)
    ensures Midnight(now) == 86400 * DayOf(now)
  {}

  /** The opening equity is that of the newest baseline row if it is of today, and otherwise the equity now, but not
      below zero; only then a row is added. */
  lemma DayStartIs(log: seq<Write>, now: int, equity: real, n: nat)
    requires Newest(log, n) && OnDay(log[n].day, now)
    ensures DayStart(log, now, equity) == log[n].amount && BaselineRows(log, now, equity) == []
  {
    BaselineIs(log, n);
  }

  lemma NewBaseline(log: seq<Write>, now: int, equity: real)
    requires forall n: nat :: Newest(log, n) ==> !OnDay(log[n].day, now)
    ensures DayStart(log, now, equity) == if equity < 0.0 then 0.0 else equity
    ensures exists day :: OnDay(day, now)
                          && BaselineRows(log, now, equity) == [BaselineRow(day, if equity < 0.0 then 0.0 else equity)]
  {
    assert OnDay(now / 86400, now);
    if n: nat :| Newest(log, n) { BaselineIs(log, n); } else { NoNewest(log); }
  }
}
