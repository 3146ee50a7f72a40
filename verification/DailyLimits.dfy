/** The daily order limits over whole days: how many orders of a day, and of one symbol on a day, can come
    before a BUY. */
module DailyLimits {
  import opened Prelude
  import opened StableSort
  import opened Ledger
  import opened Risk
  import opened PaperExecution
  import opened TradingLog
  import opened PaperCycle
  import opened CycleTrace
  import opened Runner
  import opened ClosedLoop
  import opened LoopBounds

  // ----- order rows and fill rows agree -----

  ghost predicate Matched(log: seq<Write>) {
    forall n :: 0 <= n < |log| && log[n].ExecutionRow? ==> SameTrade(log[n].order, log[n].fill)
  }

  /** Order by order, the order table has the symbol, side and time of the fill table. */
  lemma {:induction false} OrdersMatch(log: seq<Write>)
    requires Matched(log)
    ensures |OrdersOf(log)| == |FillsOf(log)|
    ensures forall n :: 0 <= n < |OrdersOf(log)| ==> SameTrade(OrdersOf(log)[n], FillsOf(log)[n])
  {
    if |log| != 0 { OrdersMatch(log[..|log| - 1]); }
  }

  lemma MatchedAppend(log: seq<Write>, more: seq<Write>)
    requires Matched(log) && Matched(more)
    ensures Matched(log + more)
  {}

  lemma CycleMatched(c: CycleConfig, j: Job)
    requires c.Valid()
    ensures Matched(CycleRows(c, j))
  {
    CycleTrail(c, j.input, j.turn.view);
    PlanMatched(PlanOf(c, j), j.turn.budget);
  }

  lemma PlanMatched(p: Plan, budget: nat)
    requires Trail(p)
    ensures Matched(Upto(p.writes, budget) + [RunnerRow(CycleError)]) && Matched(Upto(p.writes, budget) + [])
  {}

  lemma {:induction false} CyclesMatched(c: CycleConfig, log: seq<Write>, jobs: seq<Job>, n: nat)
    requires c.Valid() && n <= |jobs| && Matched(log)
    ensures Matched(CyclesLog(c, log, jobs, n))
  {
    if n != 0 {
      var m := n - 1;
      CyclesMatched(c, log, jobs, m);
      CyclesStep(c, log, jobs, m);
      CycleMatched(c, jobs[m]);
      MatchedAppend(CyclesLog(c, log, jobs, m), CycleRows(c, jobs[m]));
    }
  }

  lemma RunMatched(g: RunConfig, log: seq<Write>, r: Run)
    requires g.cycle.Valid() && Matched(log)
    ensures Matched(Started(log)) && Matched(RunLog(g, log, r))
  {
    var started := Started(log);
    MatchedAppend(log, [RunnerRow(LoopStarted)]);
    if Starts(g, started, r) {
      var b := Rebuilt(g, started).value;
      var jobs := JobsOf(g, started, b, r);
      MatchedAppend(started, BaselineRows(started, r.now, AccountEquity(g, b, r)));
      CyclesMatched(g.cycle, Prepared(g, started, b, r), jobs, Reached(g.cycle, jobs, 0));
      MatchedAppend(CycledLog(g, started, b, r), [RunnerRow(LoopFinished)]);
      MatchedAppend(CycledLog(g, started, b, r), []);
    }
  }

  lemma {:induction false} AlwaysMatched(g: RunConfig, steps: seq<Step>)
    requires g.cycle.Valid()
    ensures Matched(After(g, [], steps))
  {
    if |steps| != 0 {
      var front, step := steps[..|steps| - 1], steps[|steps| - 1];
      AlwaysMatched(g, front);
      match step
      case Row(kind) => MatchedAppend(After(g, [], front), [RunnerRow(kind)]);
      case Once(r) => RunMatched(g, After(g, [], front), r);
    }
  }

  // ----- what the counters count -----

  function DayFill(day: int): Fill -> bool { (f: Fill) => DayOf(f.filledAt) == day }

  function DaySymbolFill(day: int, s: string): Fill -> bool {
    (f: Fill) => DayOf(f.filledAt) == day && f.symbol == s
  }

  lemma {:induction false} SameCount(orders: seq<Order>, fills: seq<Fill>, p: Order -> bool, q: Fill -> bool)
    requires |orders| == |fills|
    requires forall n :: 0 <= n < |orders| ==> p(orders[n]) == q(fills[n])
    ensures |Filter(orders, p)| == |Filter(fills, q)|
  {
    if |orders| != 0 {
      SameCount(orders[..|orders| - 1], fills[..|fills| - 1], p, q);
    }
  }

  /** Of an ordered table, the last rows hold everything from t on, unless all of them are from t on. */
  lemma TailHoldsAll(orders: seq<Order>, n: nat, t: int)
    requires Ordered(orders, CreatedAt) && n <= |orders| && |Filter(orders[n..], Since(t))| < |orders| - n
    ensures Filter(orders, Since(t)) == Filter(orders[n..], Since(t))
  {
    var older, newer := orders[..n], orders[n..];
    assert orders == older + newer;
    FilterAppend(older, newer, Since(t));
    var k := FilterShort(newer, Since(t));
    forall m | 0 <= m < |older| ensures !Since(t)(older[m]) {
      assert CreatedAt(orders[m]) <= CreatedAt(orders[n + k]);
    }
    FilterNone(older, Since(t));
    assert [] + Filter(newer, Since(t)) == Filter(newer, Since(t));
  }

  lemma OrdersOrdered(log: seq<Write>)
    requires Matched(log) && Ordered(FillsOf(log), FilledAt)
    ensures Ordered(OrdersOf(log), CreatedAt)
  {
    OrdersMatch(log);
    var orders, fills := OrdersOf(log), FillsOf(log);
    forall i, j | 0 <= i < j < |orders| ensures CreatedAt(orders[i]) <= CreatedAt(orders[j]) {
      assert SameTrade(orders[i], fills[i]) && SameTrade(orders[j], fills[j]);
      assert FilledAt(fills[i]) <= FilledAt(fills[j]);
    }
  }

  lemma LastComplete(orders: seq<Order>, t: int)
    requires Ordered(orders, CreatedAt) && |Filter(LastOrders(orders), Since(t))| < RECENT_ORDERS
    ensures Filter(LastOrders(orders), Since(t)) == Filter(orders, Since(t))
  {
    if |orders| > RECENT_ORDERS { TailHoldsAll(orders, |orders| - RECENT_ORDERS, t); }
  }

  /** As long as fewer than a thousand orders are from today, none of today's is cut off. */
  lemma TodayComplete(log: seq<Write>, now: int)
    requires Matched(log) && Ordered(FillsOf(log), FilledAt) && |OrdersToday(log, now)| < RECENT_ORDERS
    ensures OrdersToday(log, now) == Filter(OrdersOf(log), Since(Midnight(now)))
  {
    var orders := OrdersOf(log);
    OrdersOrdered(log);
    SortOrdered(orders, CreatedAt);
    LastComplete(orders, Midnight(now));
  }

  lemma SinceMidnight(t: int, now: int)
    requires t <= now
    ensures t >= Midnight(now) <==> DayOf(t) == DayOf(now)
  {}

  function DaySymbolOrder(t: int, s: string): Order -> bool { (o: Order) => o.createdAt >= t && o.symbol == s }

  /** Then the two counters count the day's fills, and those of the symbol. */
  lemma CountersExact(cash: real, log: seq<Write>, clock: int, now: int, s: string)
    requires Matched(log) && Healthy(cash, FillsOf(log), clock) && clock <= now
    requires |OrdersToday(log, now)| < RECENT_ORDERS
    ensures |OrdersToday(log, now)| == |Filter(FillsOf(log), DayFill(DayOf(now)))|
    ensures TradesToday(log, now, s) == |Filter(FillsOf(log), DaySymbolFill(DayOf(now), s))|
  {
    var orders, fills, t := OrdersOf(log), FillsOf(log), Midnight(now);
    TodayComplete(log, now);
    OrdersMatch(log);
    forall n | 0 <= n < |orders|
      ensures Since(t)(orders[n]) == DayFill(DayOf(now))(fills[n])
      ensures DaySymbolOrder(t, s)(orders[n]) == DaySymbolFill(DayOf(now), s)(fills[n])
    {
      assert SameTrade(orders[n], fills[n]);
      SinceMidnight(fills[n].filledAt, now);
    }
    SameCount(orders, fills, Since(t), DayFill(DayOf(now)));
    FilterTwice(orders, Since(t), OfSymbol(s), DaySymbolOrder(t, s));
    SameCount(orders, fills, DaySymbolOrder(t, s), DaySymbolFill(DayOf(now), s));
  }

  // ----- one run -----

  /** If fill j is a BUY, fewer than four fills of its symbol come before it on its day, and fewer than
      fifteen plus the other symbols of a run of any symbol. */
  ghost predicate WithinLimits(fills: seq<Fill>, j: nat, symbols: nat)
    requires j < |fills|
  {
    fills[j].side == BUY ==>
      var day := DayOf(fills[j].filledAt);
      && |Filter(fills[..j], DaySymbolFill(day, fills[j].symbol))| < 4
      && |Filter(fills[..j], DayFill(day))| < 14 + symbols
  }

  lemma SplitCounts(old_: seq<Fill>, fills: seq<Fill>, j: nat, day: int, s: string)
    requires |old_| <= j < |fills| && fills[..|old_|] == old_
    requires forall i :: |old_| <= i < j ==> fills[i].symbol != s
    ensures |Filter(fills[..j], DaySymbolFill(day, s))| == |Filter(old_, DaySymbolFill(day, s))|
    ensures |Filter(fills[..j], DayFill(day))| <= |Filter(old_, DayFill(day))| + (j - |old_|)
  {
    var new_ := fills[|old_|..j];
    assert fills[..j] == old_ + new_;
    FilterAppend(old_, new_, DaySymbolFill(day, s));
    FilterNone(new_, DaySymbolFill(day, s));
    FilterAppend(old_, new_, DayFill(day));
    FilterLength(new_, DayFill(day));
  }

  lemma LimitsFrom(old_: seq<Fill>, fills: seq<Fill>, j: nat, symbols: nat)
    requires |old_| <= j < |fills| && fills[..|old_|] == old_ && j - |old_| < symbols
    requires forall i :: |old_| <= i < j ==> fills[i].symbol != fills[j].symbol
    requires |Filter(old_, DaySymbolFill(DayOf(fills[j].filledAt), fills[j].symbol))| < 4
    requires |Filter(old_, DayFill(DayOf(fills[j].filledAt)))| < 15
    ensures WithinLimits(fills, j, symbols)
  {
    SplitCounts(old_, fills, j, DayOf(fills[j].filledAt), fills[j].symbol);
  }

  lemma SnapshotCounts(g: RunConfig, log: seq<Write>, r: Run, clock: int, j: nat, m: nat)
    requires g.cycle.Valid() && Matched(log) && Healthy(g.initialCash, FillsOf(log), clock) && clock <= r.now
    requires Distinct(r) && m < |r.symbols| && PlannedBy(g, log, r, j, m) && FillsOf(RunLog(g, log, r))[j].side == BUY
    ensures |Filter(FillsOf(log), DayFill(DayOf(r.now)))| < 15
    ensures |Filter(FillsOf(log), DaySymbolFill(DayOf(r.now), r.symbols[m].symbol))| < 4
  {
    var s := r.symbols[m].symbol;
    PlannedBuy(g, log, r, j, m);
    BuyNeedsRoom(g, Started(log), Rebuilt(g, log).value, r, r.symbols[m]);
    RunFills(g, log, r);
    RunMatched(g, log, r);
    CountersExact(g.initialCash, Started(log), clock, r.now, s);
  }

  lemma PlannedPlace(g: RunConfig, log: seq<Write>, r: Run, j: nat, m: nat)
    requires g.cycle.Valid() && m < |r.symbols| && PlannedBy(g, log, r, j, m)
    ensures var fills := FillsOf(RunLog(g, log, r));
            j <= |FillsOf(log)| + m && forall i :: |FillsOf(log)| <= i < j ==> fills[i].symbol != fills[j].symbol
  {}

  lemma BuyPlace(g: RunConfig, log: seq<Write>, r: Run, clock: int, j: nat, m: nat)
    requires g.cycle.Valid() && Matched(log) && Healthy(g.initialCash, FillsOf(log), clock) && clock <= r.now
    requires Distinct(r) && m < |r.symbols| && PlannedBy(g, log, r, j, m) && FillsOf(RunLog(g, log, r))[j].side == BUY
    requires |FillsOf(log)| <= j
    ensures WithinLimits(FillsOf(RunLog(g, log, r)), j, |r.symbols|)
  {
    PlannedPlace(g, log, r, j, m);
    PlannedBuy(g, log, r, j, m);
    SnapshotCounts(g, log, r, clock, j, m);
    RunKeepsFills(g, log, r, clock);
    LimitsFrom(FillsOf(log), FillsOf(RunLog(g, log, r)), j, |r.symbols|);
  }

  lemma RunWithinLimits(g: RunConfig, log: seq<Write>, r: Run, clock: int, j: nat)
    requires g.cycle.Valid() && Matched(log) && Healthy(g.initialCash, FillsOf(log), clock) && clock <= r.now
    requires Distinct(r) && |FillsOf(log)| <= j < |FillsOf(RunLog(g, log, r))|
    ensures WithinLimits(FillsOf(RunLog(g, log, r)), j, |r.symbols|)
  {
    if FillsOf(RunLog(g, log, r))[j].side == BUY {
      var m := RunFillsPlanned(g, log, r, clock, j);
      BuyPlace(g, log, r, clock, j, m);
    }
  }

  // ----- every run -----

  ghost predicate AtMost(steps: seq<Step>, symbols: nat) {
    forall n :: 0 <= n < |steps| && steps[n].Once? ==> |steps[n].run.symbols| <= symbols
  }

  lemma KeepsLimits(old_: seq<Fill>, fills: seq<Fill>, j: nat, symbols: nat)
    requires old_ <= fills && j < |old_| && WithinLimits(old_, j, symbols)
    ensures WithinLimits(fills, j, symbols)
  {
    assert fills[..j] == old_[..j];
  }

  lemma StepWithinLimits(g: RunConfig, log: seq<Write>, s: Step, clock: int, symbols: nat, j: nat)
    requires g.cycle.Valid() && Matched(log) && Healthy(g.initialCash, FillsOf(log), clock)
    requires s.Once? ==> Distinct(s.run) && clock <= s.run.now && |s.run.symbols| <= symbols
    requires j < |FillsOf(AfterStep(g, log, s))| && (j < |FillsOf(log)| ==> WithinLimits(FillsOf(log), j, symbols))
    ensures WithinLimits(FillsOf(AfterStep(g, log, s)), j, symbols)
  {
    match s
    case Row(kind) => FillsUnchanged(log, [RunnerRow(kind)]);
    case Once(r) =>
      RunKeepsFills(g, log, r, clock);
      if j < |FillsOf(log)| { KeepsLimits(FillsOf(log), FillsOf(RunLog(g, log, r)), j, symbols); }
      else { RunWithinLimits(g, log, r, clock, j); }
  }

  lemma {:induction false} StepsWithinLimits(g: RunConfig, steps: seq<Step>, n: nat, symbols: nat, j: nat)
    requires g.cycle.Valid() && ValidSteps(steps) && AtMost(steps, symbols) && n <= |steps|
    requires j < |FillsOf(After(g, [], steps[..n]))|
    ensures WithinLimits(FillsOf(After(g, [], steps[..n])), j, symbols)
  {
    if n != 0 {
      var m := n - 1;
      var clock := HealthyBefore(g, steps, m);
      if j < |FillsOf(After(g, [], steps[..m]))| { StepsWithinLimits(g, steps, m, symbols, j); }
      AlwaysMatched(g, steps[..m]);
      StepWithinLimits(g, After(g, [], steps[..m]), steps[m], clock, symbols, j);
    }
  }

  /** On every reachable log: when a BUY is persisted, fewer than four orders of its symbol are there from
      its day, and fewer than fifteen plus the other symbols of its run of any symbol. */
  lemma BuyWithinLimits(g: RunConfig, steps: seq<Step>, symbols: nat, j: nat)
    requires g.cycle.Valid() && ValidSteps(steps) && AtMost(steps, symbols) && j < |FillsOf(After(g, [], steps))|
    ensures WithinLimits(FillsOf(After(g, [], steps)), j, symbols)
  {
    assert steps[..|steps|] == steps;
    StepsWithinLimits(g, steps, |steps|, symbols, j);
  }

  // ----- BUYs of a day -----

  function DayBuy(day: int): Fill -> bool { (f: Fill) => f.side == BUY && DayOf(f.filledAt) == day }

  function DaySymbolBuy(day: int, s: string): Fill -> bool {
    (f: Fill) => f.side == BUY && DayOf(f.filledAt) == day && f.symbol == s
  }

  /** If every fill that p keeps has fewer than `limit` earlier fills that q keeps, p keeps at most `limit`. */
  lemma {:induction false} LimitedCount(fills: seq<Fill>, n: nat, p: Fill -> bool, q: Fill -> bool, limit: int)
    requires n <= |fills| && limit >= 0 && forall i :: 0 <= i < |fills| && p(fills[i]) ==> q(fills[i])
    requires forall i :: 0 <= i < |fills| && p(fills[i]) ==> |Filter(fills[..i], q)| < limit
    ensures |Filter(fills[..n], p)| <= limit
  {
    if n != 0 {
      var m := n - 1;
      assert fills[..n] == fills[..m] + [fills[m]];
      FilterSnoc(fills[..m], fills[m], p);
      if p(fills[m]) { FilterFewer(fills[..m], p, q); } else { LimitedCount(fills, m, p, q, limit); }
    }
  }

  lemma SymbolBuys(fills: seq<Fill>, symbols: nat, day: int, s: string)
    requires forall i :: 0 <= i < |fills| ==> WithinLimits(fills, i, symbols)
    ensures |Filter(fills, DaySymbolBuy(day, s))| <= 4
  {
    assert fills[..|fills|] == fills;
    forall i | 0 <= i < |fills| && DaySymbolBuy(day, s)(fills[i])
      ensures |Filter(fills[..i], DaySymbolFill(day, s))| < 4
    {
      assert WithinLimits(fills, i, symbols);
    }
    LimitedCount(fills, |fills|, DaySymbolBuy(day, s), DaySymbolFill(day, s), 4);
  }

  lemma AllBuys(fills: seq<Fill>, symbols: nat, day: int)
    requires forall i :: 0 <= i < |fills| ==> WithinLimits(fills, i, symbols)
    ensures |Filter(fills, DayBuy(day))| <= 14 + symbols
  {
    assert fills[..|fills|] == fills;
    forall i | 0 <= i < |fills| && DayBuy(day)(fills[i])
      ensures |Filter(fills[..i], DayFill(day))| < 14 + symbols
    {
      assert WithinLimits(fills, i, symbols);
    }
    LimitedCount(fills, |fills|, DayBuy(day), DayFill(day), 14 + symbols);
  }

  /** On every reachable log: at most four BUYs of one symbol on one day, and at most fourteen plus the number
      of symbols in all. */
  lemma BuysOfADay(g: RunConfig, steps: seq<Step>, symbols: nat, day: int, s: string)
    requires g.cycle.Valid() && ValidSteps(steps) && AtMost(steps, symbols)
    ensures |Filter(FillsOf(After(g, [], steps)), DaySymbolBuy(day, s))| <= 4
    ensures |Filter(FillsOf(After(g, [], steps)), DayBuy(day))| <= 14 + symbols
  {
    var fills := FillsOf(After(g, [], steps));
    forall i | 0 <= i < |fills| ensures WithinLimits(fills, i, symbols) { BuyWithinLimits(g, steps, symbols, i); }
    SymbolBuys(fills, symbols, day, s);
    AllBuys(fills, symbols, day);
  }
}
