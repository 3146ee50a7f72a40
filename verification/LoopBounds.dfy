/** Bounds that hold over runs of the closed loop: no growth outside paper_auto, exposure per run, and
    the daily-loss stop against a stable baseline. */
module LoopBounds {
  import opened Prelude
  import opened Sums
  import opened Ledger
  import opened Risk
  import opened Gate
  import opened TradingLog
  import opened PaperCycle
  import opened CycleTrace
  import opened Runner
  import opened ClosedLoop

  // ----- mode -----

  /** Exits are not gated: with a due exit, the cycle persists the SELL in every mode, paused included. */
  lemma ExitsIgnoreMode(c: CycleConfig, i: CycleInput, v: View)
    requires c.Valid() && ExitSell(c, i) != None
    ensures FillsOf(CyclePlan(c, i, v).writes) == [ExitSell(c, i).value]
  {
    CycleFills(c, i, v);
  }

  function QtyOf(b: Book, s: string): real { if s in b.positions then b.positions[s].qty else 0.0 }

  ghost predicate NotPaperAuto(turns: seq<SymbolRun>) {
    forall n :: 0 <= n < |turns| ==> turns[n].view.mode != PaperAuto
  }

  ghost predicate NoLarger(a: Book, b: Book) { forall s :: QtyOf(a, s) <= QtyOf(b, s) }

  // ----- the replayed book, cycle by cycle -----

  ghost function BookAfter(c: CycleConfig, cash: real, log: seq<Write>, jobs: seq<Job>, n: nat)
    : Result<Book, LedgerError>
    requires c.Valid() && n <= |jobs|
  {
    Replay(cash, FillsOf(CyclesLog(c, log, jobs, n)))
  }

  /** The cycles start from a healthy log that replays to the book their inputs show. */
  ghost predicate Ready(c: CycleConfig, cash: real, log: seq<Write>, b: Book, jobs: seq<Job>, now: int) {
    && c.Valid() && Show(jobs, b, now) && DistinctJobs(jobs)
    && Healthy(cash, FillsOf(log), now) && Replay(cash, FillsOf(log)) == Ok(b)
  }

  /** Nothing, or a fitting fill, on a symbol that still has its snapshot position. */
  ghost predicate StepOf(before: Book, after: Book, b: Book, s: string, fill: Option<Fill>) {
    && QtyPositive(before) && Held(before, s) == Held(b, s)
    && (after == before || (fill != None && Fits(before, fill.value) && Apply(before, fill.value) == Ok(after)))
  }

  /** The same, between the replays of two logs. */
  ghost predicate StepBetween(x: Result<Book, LedgerError>, y: Result<Book, LedgerError>, b: Book, s: string,
                              fill: Option<Fill>)
  {
    x.Ok? && y.Ok? && StepOf(x.value, y.value, b, s, fill)
  }

  lemma RowsStep(c: CycleConfig, cash: real, fills: seq<Fill>, b: Book, j: Job)
    requires c.Valid() && Healthy(cash, fills, j.input.now) && j.input.position == Held(b, j.input.symbol)
    requires Held(Replay(cash, fills).value, j.input.symbol) == Held(b, j.input.symbol)
    ensures StepBetween(Replay(cash, fills), Replay(cash, fills + FillsOf(CycleRows(c, j))), b, j.input.symbol,
                        JobFill(c, j))
  {
    RowsFills(c, j);
    HealthyBook(cash, fills, j.input.now);
    if FillsOf(CycleRows(c, j)) == [] {
      assert fills + [] == fills;
    } else {
      JobFillFits(c, j, Replay(cash, fills).value);
      HealthyAppend(cash, fills, j.input.now, JobFill(c, j).value);
    }
  }

  /** What one cycle does to the replayed book: nothing, or its own planned fill, which fits. */
  lemma BookStep(c: CycleConfig, cash: real, log: seq<Write>, b: Book, jobs: seq<Job>, now: int, n: nat)
    requires Ready(c, cash, log, b, jobs, now) && n < |jobs|
    ensures StepBetween(BookAfter(c, cash, log, jobs, n), BookAfter(c, cash, log, jobs, n + 1), b,
                        jobs[n].input.symbol, JobFill(c, jobs[n]))
  {
    OutcomeStart(c, cash, log, b, jobs, now);
    CyclesOutcome(c, cash, log, b, jobs, now, n);
    DistinctSellsOnce(c, jobs, n);
    CyclesFills(c, log, jobs, n);
    assert Unfilled(c, jobs, n, jobs[n].input.symbol);
    RowsStep(c, cash, FillsOf(CyclesLog(c, log, jobs, n)), b, jobs[n]);
  }

  lemma ReadyBefore(g: RunConfig, log: seq<Write>, r: Run, clock: int)
    requires g.cycle.Valid() && Healthy(g.initialCash, FillsOf(log), clock) && clock <= r.now && Distinct(r)
    ensures Rebuilt(g, log).Ok?
    ensures var b := Rebuilt(g, log).value;
            Ready(g.cycle, g.initialCash, Prepared(g, log, b, r), b, JobsOf(g, log, b, r), r.now)
  {
    HealthyBook(g.initialCash, FillsOf(log), clock);
    HealthyLater(g.initialCash, FillsOf(log), clock, r.now);
    PreparedFills(g, log, Rebuilt(g, log).value, r);
    JobsShow(g, log, Rebuilt(g, log).value, r);
  }

  lemma RebuiltAfter(g: RunConfig, log: seq<Write>, r: Run, clock: int)
    requires g.cycle.Valid() && Healthy(g.initialCash, FillsOf(log), clock) && clock <= r.now && Distinct(r)
    ensures Rebuilt(g, RunLog(g, log, r)) == Replay(g.initialCash, FillsOf(RunLog(g, log, r)))
  {
    RunKeepsHealth(g, log, r, clock);
    HealthyBook(g.initialCash, FillsOf(RunLog(g, log, r)), r.now);
  }

  /** A run on a healthy log is ready, and its log replays to the book after the cycles it reached. */
  lemma RunReady(g: RunConfig, log: seq<Write>, r: Run, clock: int)
    requires g.cycle.Valid() && Healthy(g.initialCash, FillsOf(log), clock) && clock <= r.now && Distinct(r)
    ensures Rebuilt(g, Started(log)) == Rebuilt(g, log) && Rebuilt(g, log).Ok?
    ensures var b := Rebuilt(g, log).value;
            var jobs, prepared := JobsOf(g, Started(log), b, r), Prepared(g, Started(log), b, r);
            && Ready(g.cycle, g.initialCash, prepared, b, jobs, r.now)
            && Rebuilt(g, RunLog(g, log, r))
               == if Starts(g, Started(log), r)
                  then BookAfter(g.cycle, g.initialCash, prepared, jobs, Reached(g.cycle, jobs, 0)) else Ok(b)
  {
    RunFills(g, log, r);
    ReadyBefore(g, Started(log), r, clock);
    RebuiltAfter(g, log, r, clock);
    HealthyBook(g.initialCash, FillsOf(log), clock);
  }

  // ----- no growth -----

  lemma SellShrinks(b: Book, f: Fill)
    requires QtyPositive(b) && Fits(b, f) && f.side == SELL && Apply(b, f).Ok?
    ensures NoLarger(Apply(b, f).value, b)
  {
    FitsApplies(b, f);
  }

  lemma QuietStep(c: CycleConfig, before: Book, after: Book, b: Book, j: Job)
    requires c.Valid() && j.input.position == Held(b, j.input.symbol) && j.turn.view.mode != PaperAuto
    requires StepOf(before, after, b, j.input.symbol, JobFill(c, j))
    ensures NoLarger(after, before)
  {
    if after != before {
      JobFillFits(c, j, before);
      SellShrinks(before, JobFill(c, j).value);
    }
  }

  ghost predicate Quieter(x: Result<Book, LedgerError>, b: Book) { x.Ok? && NoLarger(x.value, b) }

  lemma {:induction false} QuietCycles(c: CycleConfig, cash: real, log: seq<Write>, b: Book, jobs: seq<Job>, now: int,
                                       n: nat)
    requires Ready(c, cash, log, b, jobs, now) && n <= |jobs|
    requires forall m :: 0 <= m < |jobs| ==> jobs[m].turn.view.mode != PaperAuto
    ensures Quieter(BookAfter(c, cash, log, jobs, n), b)
  {
    if n != 0 {
      var m := n - 1;
      QuietCycles(c, cash, log, b, jobs, now, m);
      BookStep(c, cash, log, b, jobs, now, m);
      QuietStep(c, BookAfter(c, cash, log, jobs, m).value, BookAfter(c, cash, log, jobs, n).value, b, jobs[m]);
    }
  }

  lemma QuietRun(g: RunConfig, log: seq<Write>, r: Run, clock: int)
    requires g.cycle.Valid() && Healthy(g.initialCash, FillsOf(log), clock) && clock <= r.now && Distinct(r)
    requires NotPaperAuto(r.symbols)
    ensures Rebuilt(g, log).Ok? && Quieter(Rebuilt(g, RunLog(g, log, r)), Rebuilt(g, log).value)
  {
    RunReady(g, log, r, clock);
    var b := Rebuilt(g, log).value;
    var jobs := JobsOf(g, Started(log), b, r);
    QuietCycles(g.cycle, g.initialCash, Prepared(g, Started(log), b, r), b, jobs, r.now, Reached(g.cycle, jobs, 0));
  }

  ghost predicate QuietAfter(g: RunConfig, steps: seq<Step>, from: nat, n: nat)
    requires g.cycle.Valid() && from <= n <= |steps|
  {
    && Rebuilt(g, After(g, [], steps[..from])).Ok?
    && Quieter(Rebuilt(g, After(g, [], steps[..n])), Rebuilt(g, After(g, [], steps[..from])).value)
  }

  lemma QuietStepOf(g: RunConfig, log: seq<Write>, s: Step, clock: int)
    requires g.cycle.Valid() && Healthy(g.initialCash, FillsOf(log), clock) && Rebuilt(g, log).Ok?
    requires s.Once? ==> Distinct(s.run) && NotPaperAuto(s.run.symbols) && clock <= s.run.now
    ensures Quieter(Rebuilt(g, AfterStep(g, log, s)), Rebuilt(g, log).value)
  {
    match s
    case Row(kind) => FillsUnchanged(log, [RunnerRow(kind)]);
    case Once(r) => QuietRun(g, log, r, clock);
  }

  function LastNow(steps: seq<Step>): int {
    if |steps| == 0 then 0
    else if steps[|steps| - 1].Once? then steps[|steps| - 1].run.now
    else LastNow(steps[..|steps| - 1])
  }

  lemma {:induction false} LastNowIsLast(steps: seq<Step>)
    requires ValidSteps(steps)
    ensures NotAfter(steps, LastNow(steps))
  {
    if |steps| != 0 {
      ValidFront(steps, |steps| - 1);
      LastNowIsLast(steps[..|steps| - 1]);
      assert forall m :: 0 <= m < |steps| - 1 ==> steps[m] == steps[..|steps| - 1][m];
    }
  }

  lemma HealthyBefore(g: RunConfig, steps: seq<Step>, n: nat) returns (clock: int)
    requires g.cycle.Valid() && ValidSteps(steps) && n < |steps|
    ensures Healthy(g.initialCash, FillsOf(After(g, [], steps[..n])), clock) && Rebuilt(g, After(g, [], steps[..n])).Ok?
    ensures steps[n].Once? ==> clock == steps[n].run.now
    ensures After(g, [], steps[..n + 1]) == AfterStep(g, After(g, [], steps[..n]), steps[n])
  {
    ValidFront(steps, n);
    LastNowIsLast(steps[..n]);
    clock := if steps[n].Once? then steps[n].run.now else LastNow(steps[..n]);
    ReplaySafety(g, steps[..n], clock);
    AfterNext(g, [], steps, n);
  }

  lemma QuietNext(g: RunConfig, steps: seq<Step>, from: nat, n: nat)
    requires g.cycle.Valid() && ValidSteps(steps) && from <= n < |steps| && QuietAfter(g, steps, from, n)
    requires steps[n].Once? ==> NotPaperAuto(steps[n].run.symbols)
    ensures QuietAfter(g, steps, from, n + 1)
  {
    var clock := HealthyBefore(g, steps, n);
    QuietStepOf(g, After(g, [], steps[..n]), steps[n], clock);
  }

  lemma {:induction false} QuietSteps(g: RunConfig, steps: seq<Step>, from: nat, n: nat)
    requires g.cycle.Valid() && ValidSteps(steps) && from <= n <= |steps| && QuietAfter(g, steps, from, from)
    requires forall m :: from <= m < |steps| && steps[m].Once? ==> NotPaperAuto(steps[m].run.symbols)
    ensures QuietAfter(g, steps, from, n)
  {
    if n != from {
      var m := n - 1;
      QuietSteps(g, steps, from, m);
      QuietNext(g, steps, from, m);
    }
  }

  /** No growth outside paper_auto: over any stretch of steps in which no cycle reads that mode, no
      position's replayed quantity ever increases. */
  lemma NoGrowth(g: RunConfig, steps: seq<Step>, from: nat)
    requires g.cycle.Valid() && ValidSteps(steps) && from <= |steps|
    requires forall n :: from <= n < |steps| && steps[n].Once? ==> NotPaperAuto(steps[n].run.symbols)
    ensures Rebuilt(g, After(g, [], steps[..from])).Ok? && Rebuilt(g, After(g, [], steps)).Ok?
    ensures NoLarger(Rebuilt(g, After(g, [], steps)).value, Rebuilt(g, After(g, [], steps[..from])).value)
  {
    ValidFront(steps, from);
    LastNowIsLast(steps[..from]);
    ReplaySafety(g, steps[..from], LastNow(steps[..from]));
    QuietSteps(g, steps, from, |steps|);
    assert steps[..|steps|] == steps;
  }

  // ----- exposure -----

  /** The most one BUY may be worth at this equity; nothing when no profile applies. */
  function CapAt(e: real): real {
    match SelectRiskProfile(e, DEFAULT_PROFILES)
    case Ok(p) => SymbolCap(e, p)
    case Err(_) => 0.0
  }

  ghost function Cap(g: RunConfig, b: Book, r: Run): real { CapAt(AccountEquity(g, b, r)) }

  lemma ProfileRates(e: real)
    requires e >= 0.0
    ensures SelectRiskProfile(e, DEFAULT_PROFILES).Ok?
    ensures var p := SelectRiskProfile(e, DEFAULT_PROFILES).value;
            p in DEFAULT_PROFILES && SymbolCap(e, p) >= 0.0 && p.noNewPositionsPct <= p.globalPausePct
  {
    TiersPartition(e, 0);
    TiersPartition(e, 1);
    TiersPartition(e, 2);
    var p := SelectRiskProfile(e, DEFAULT_PROFILES).value;
    MulNonneg(e, p.symbolPositionPct);
  }

  lemma CapNonneg(g: RunConfig, b: Book, r: Run)
    ensures Cap(g, b, r) >= 0.0
  {
    if AccountEquity(g, b, r) >= 0.0 { ProfileRates(AccountEquity(g, b, r)); }
  }

  /** The pre-trade limits that a snapshot must keep for its cycle to buy. */
  predicate Room(risk: Snapshot) {
    && risk.equity > 0.0 && SelectRiskProfile(risk.equity, DEFAULT_PROFILES).Ok?
    && risk.totalPct < SelectRiskProfile(risk.equity, DEFAULT_PROFILES).value.totalPositionPct
    && risk.symbolPct < SelectRiskProfile(risk.equity, DEFAULT_PROFILES).value.symbolPositionPct
    && risk.dailyOrders < 15 && risk.symbolDailyTrades < 4
  }

  lemma BuyHasRoom(c: CycleConfig, i: CycleInput, v: View)
    requires c.Valid() && EntryBuy(c, i, v) != None
    ensures Room(i.risk) && WithinCap(EntryBuy(c, i, v), i.symbol, i.prices, CapAt(i.risk.equity))
  {
    EntryBuyFacts(c, i, v);
    ProfileRates(i.risk.equity);
    CapPositiveEquity(i.risk.equity, SelectRiskProfile(i.risk.equity, DEFAULT_PROFILES).value);
    ApprovedIff(i.risk, SelectRiskProfile(i.risk.equity, DEFAULT_PROFILES).value);
  }

  /** The planned fill, if any, is for this symbol, at a positive price, and within the cap. */
  ghost predicate WithinCap(fill: Option<Fill>, s: string, prices: map<string, real>, cap: real) {
    fill != None ==> fill.value.symbol == s && s in prices && prices[s] > 0.0
                     && (fill.value.side == BUY ==> fill.value.qty * prices[s] <= cap)
  }

  lemma FillWithinCap(c: CycleConfig, i: CycleInput, v: View)
    requires c.Valid()
    ensures WithinCap(CycleFill(c, i, v), i.symbol, i.prices, CapAt(i.risk.equity))
  {
    if ExitSell(c, i) != None { ExitSellFacts(c, i); } else if EntryBuy(c, i, v) != None { BuyHasRoom(c, i, v); }
  }

  /** Open value below the total limit, the symbol's value below the cap. */
  predicate Allows(e: real, value: real, symbolValue: real) {
    && e > 0.0 && SelectRiskProfile(e, DEFAULT_PROFILES).Ok?
    && 100.0 * value < SelectRiskProfile(e, DEFAULT_PROFILES).value.totalPositionPct * e
    && symbolValue < SymbolCap(e, SelectRiskProfile(e, DEFAULT_PROFILES).value)
  }

  /** What the snapshot of a run must look like for one of its cycles to buy. */
  ghost predicate BuyAllowed(g: RunConfig, b: Book, r: Run, s: string) {
    Allows(AccountEquity(g, b, r), Value(b, PricesOf(r)), SymbolValue(b, s, PricesOf(r)))
  }

  lemma PctBelow(value: real, e: real, limit: real)
    requires e > 0.0 && Pct(value, e) < limit
    ensures 100.0 * value < limit * e
  {
    DivMul(value, e);
    assert value / e * 100.0 * e == 100.0 * value;
    MulPos(limit - value / e * 100.0, e);
  }

  lemma CapPositiveEquity(e: real, p: RiskProfile)
    requires SymbolCap(e, p) > 0.0 && e >= 0.0
    ensures e > 0.0
  {}

  lemma RoomInValues(risk: Snapshot, value: real, symbolValue: real)
    requires Room(risk) && risk.totalPct == Pct(value, risk.equity) && risk.symbolPct == Pct(symbolValue, risk.equity)
    ensures Allows(risk.equity, value, symbolValue)
  {
    var e, p := risk.equity, SelectRiskProfile(risk.equity, DEFAULT_PROFILES).value;
    PctBelow(value, e, p.totalPositionPct);
    PctBelow(symbolValue, e, p.symbolPositionPct);
  }

  /** The snapshot fields that the bounds need. */
  lemma InputFields(g: RunConfig, log: seq<Write>, b: Book, r: Run, s: string)
    ensures var i := InputFor(g, log, b, r, s);
            && i.symbol == s && i.prices == PricesOf(r) && i.risk.equity == AccountEquity(g, b, r)
            && i.risk.totalPct == Pct(Value(b, PricesOf(r)), i.risk.equity)
            && i.risk.symbolPct == Pct(SymbolValue(b, s, PricesOf(r)), i.risk.equity)
            && i.risk.dayStart == RunDayStart(g, log, b, r)
            && i.risk.dailyOrders == |OrdersToday(log, r.now)| && i.risk.symbolDailyTrades == TradesToday(log, r.now, s)
  {}

  lemma RoomMeans(g: RunConfig, log: seq<Write>, b: Book, r: Run, s: string)
    requires Room(InputFor(g, log, b, r, s).risk)
    ensures |OrdersToday(log, r.now)| < 15 && TradesToday(log, r.now, s) < 4
    ensures BuyAllowed(g, b, r, s)
  {
    InputFields(g, log, b, r, s);
    RoomInValues(InputFor(g, log, b, r, s).risk, Value(b, PricesOf(r)), SymbolValue(b, s, PricesOf(r)));
  }

  /** A planned BUY needs room in the snapshot and is worth at most the cap. */
  lemma BuyNeedsRoom(g: RunConfig, log: seq<Write>, b: Book, r: Run, x: SymbolRun)
    requires g.cycle.Valid() && EntryBuy(g.cycle, InputFor(g, log, b, r, x.symbol), x.view) != None
    ensures |OrdersToday(log, r.now)| < 15 && TradesToday(log, r.now, x.symbol) < 4
    ensures BuyAllowed(g, b, r, x.symbol)
    ensures WithinCap(EntryBuy(g.cycle, InputFor(g, log, b, r, x.symbol), x.view), x.symbol, PricesOf(r), Cap(g, b, r))
  {
    var i := InputFor(g, log, b, r, x.symbol);
    BuyHasRoom(g.cycle, i, x.view);
    RoomMeans(g, log, b, r, x.symbol);
  }

  lemma ValuesUpdate(ps: map<string, Position>, s: string, p: Position, prices: map<string, real>)
    ensures Sum(ValuesOf(ps[s := p], prices))
         == Sum(ValuesOf(ps, prices)) + Worth(s, p, prices) - (if s in ps then Worth(s, ps[s], prices) else 0.0)
  {
    assert ValuesOf(ps[s := p], prices) == ValuesOf(ps, prices)[s := Worth(s, p, prices)];
    SumUpdate(ValuesOf(ps, prices), s, Worth(s, p, prices));
  }

  lemma ValuesRemove(ps: map<string, Position>, s: string, prices: map<string, real>)
    requires s in ps
    ensures Sum(ValuesOf(ps - {s}, prices)) == Sum(ValuesOf(ps, prices)) - Worth(s, ps[s], prices)
  {
    assert ValuesOf(ps - {s}, prices) == ValuesOf(ps, prices) - {s};
    SumRemove(ValuesOf(ps, prices), s);
  }

  function AtMarket(qty: real, s: string, prices: map<string, real>): real
    requires s in prices
  {
    qty * prices[s]
  }

  lemma WorthIncreased(s: string, p: Position, f: Fill, prices: map<string, real>)
    requires s in prices && p.qty + f.qty != 0.0
    ensures Worth(s, Increased(p, f), prices) == Worth(s, p, prices) + AtMarket(f.qty, s, prices)
  {
    assert (p.qty + f.qty) * prices[s] == p.qty * prices[s] + f.qty * prices[s];
  }

  /** A BUY adds its quantity at the market price ... */
  lemma BuyMovesValue(b: Book, f: Fill, prices: map<string, real>)
    requires QtyPositive(b) && f.side == BUY && Buy(b, f).Ok? && f.symbol in prices
    ensures var after, added := Buy(b, f).value, AtMarket(f.qty, f.symbol, prices);
            Value(after, prices) == Value(b, prices) + added
            && SymbolValue(after, f.symbol, prices) == SymbolValue(b, f.symbol, prices) + added
  {
    if f.symbol in b.positions {
      WorthIncreased(f.symbol, b.positions[f.symbol], f, prices);
      ValuesUpdate(b.positions, f.symbol, Increased(b.positions[f.symbol], f), prices);
    } else {
      assert Worth(f.symbol, Opened(f), prices) == AtMarket(f.qty, f.symbol, prices);
      ValuesUpdate(b.positions, f.symbol, Opened(f), prices);
    }
  }

  /** ... and a closing SELL takes the position's whole value away. */
  lemma SellMovesValue(b: Book, f: Fill, prices: map<string, real>)
    requires QtyPositive(b) && Fits(b, f) && f.side == SELL && f.symbol in prices && prices[f.symbol] > 0.0
    ensures Sell(b, f).Ok? && SymbolValue(b, f.symbol, prices) > 0.0
    ensures Value(Sell(b, f).value, prices) == Value(b, prices) - SymbolValue(b, f.symbol, prices)
    ensures SymbolValue(Sell(b, f).value, f.symbol, prices) == 0.0
  {
    FitsApplies(b, f);
    ValuesRemove(b.positions, f.symbol, prices);
    MulPos(b.positions[f.symbol].qty, prices[f.symbol]);
  }

  /** The exposure invariant after n cycles: each adds at most the cap, to its own symbol only. */
  ghost predicate ExposedBook(now: Book, b: Book, prices: map<string, real>, cap: real, n: nat) {
    && Value(now, prices) <= Value(b, prices) + n as real * cap
    && (forall s :: s in prices ==> SymbolValue(now, s, prices) <= SymbolValue(b, s, prices) + cap)
  }

  /** One cycle moves the exposure by at most the cap, on its own symbol only. */
  ghost predicate MovesUpTo(before: Book, after: Book, b: Book, s: string, prices: map<string, real>, cap: real) {
    && Value(after, prices) <= Value(before, prices) + cap
    && (s in prices ==> SymbolValue(after, s, prices) <= SymbolValue(b, s, prices) + cap)
    && (forall t :: t != s ==> SymbolValue(after, t, prices) == SymbolValue(before, t, prices))
  }

  lemma OtherValues(before: Book, f: Fill, prices: map<string, real>)
    requires Apply(before, f).Ok?
    ensures forall t :: t != f.symbol
              ==> SymbolValue(Apply(before, f).value, t, prices) == SymbolValue(before, t, prices)
  {
    forall t | t != f.symbol
      ensures SymbolValue(Apply(before, f).value, t, prices) == SymbolValue(before, t, prices)
    {
      ApplyLocal(before, f, t);
    }
  }

  lemma FillExposure(before: Book, b: Book, f: Fill, prices: map<string, real>, cap: real)
    requires QtyPositive(before) && Held(before, f.symbol) == Held(b, f.symbol)
    requires Fits(before, f) && Apply(before, f).Ok?
    requires f.symbol in prices && prices[f.symbol] > 0.0 && cap >= 0.0
    requires f.side == BUY ==> f.qty * prices[f.symbol] <= cap
    ensures MovesUpTo(before, Apply(before, f).value, b, f.symbol, prices, cap)
  {
    OtherValues(before, f, prices);
    assert SymbolValue(before, f.symbol, prices) == SymbolValue(b, f.symbol, prices);
    if f.side == BUY {
      BuyMovesValue(before, f, prices);
      assert AtMarket(f.qty, f.symbol, prices) <= cap;
    } else {
      SellMovesValue(before, f, prices);
    }
  }

  lemma StepExposure(before: Book, after: Book, b: Book, s: string, fill: Option<Fill>,
                     prices: map<string, real>, cap: real, n: nat)
    requires StepOf(before, after, b, s, fill) && WithinCap(fill, s, prices, cap) && cap >= 0.0
    requires ExposedBook(before, b, prices, cap, n)
    ensures ExposedBook(after, b, prices, cap, n + 1)
  {
    NextMultiple(n, cap);
    if after != before {
      FillExposure(before, b, fill.value, prices, cap);
      MovedExposure(before, after, b, s, prices, cap, n);
    }
  }

  lemma MovedExposure(before: Book, after: Book, b: Book, s: string, prices: map<string, real>, cap: real, n: nat)
    requires MovesUpTo(before, after, b, s, prices, cap) && ExposedBook(before, b, prices, cap, n)
    ensures ExposedBook(after, b, prices, cap, n + 1)
  {
    NextMultiple(n, cap);
  }

  lemma NextMultiple(n: nat, cap: real)
    ensures (n + 1) as real * cap == n as real * cap + cap
  {}

  ghost predicate Capped(c: CycleConfig, jobs: seq<Job>, prices: map<string, real>, cap: real)
    requires c.Valid()
  {
    forall n :: 0 <= n < |jobs| ==> WithinCap(JobFill(c, jobs[n]), jobs[n].input.symbol, prices, cap)
  }

  lemma RunCapped(g: RunConfig, log: seq<Write>, b: Book, r: Run)
    requires g.cycle.Valid()
    ensures Capped(g.cycle, JobsOf(g, log, b, r), PricesOf(r), Cap(g, b, r))
  {
    var jobs := JobsOf(g, log, b, r);
    forall n | 0 <= n < |jobs|
      ensures WithinCap(JobFill(g.cycle, jobs[n]), jobs[n].input.symbol, PricesOf(r), Cap(g, b, r))
    {
      FillWithinCap(g.cycle, jobs[n].input, jobs[n].turn.view);
    }
  }

  ghost predicate Exposed(x: Result<Book, LedgerError>, b: Book, prices: map<string, real>, cap: real, n: nat) {
    x.Ok? && ExposedBook(x.value, b, prices, cap, n)
  }

  lemma {:induction false} CyclesExposed(c: CycleConfig, cash: real, log: seq<Write>, b: Book, jobs: seq<Job>, now: int,
                                         prices: map<string, real>, cap: real, n: nat)
    requires Ready(c, cash, log, b, jobs, now) && n <= |jobs| && Capped(c, jobs, prices, cap) && cap >= 0.0
    ensures Exposed(BookAfter(c, cash, log, jobs, n), b, prices, cap, n)
  {
    if n != 0 {
      var m := n - 1;
      CyclesExposed(c, cash, log, b, jobs, now, prices, cap, m);
      BookStep(c, cash, log, b, jobs, now, m);
      StepExposure(BookAfter(c, cash, log, jobs, m).value, BookAfter(c, cash, log, jobs, n).value, b,
                   jobs[m].input.symbol, JobFill(c, jobs[m]), prices, cap, m);
    }
  }

  lemma FewerCaps(now: Book, b: Book, prices: map<string, real>, cap: real, n: nat, k: nat)
    requires ExposedBook(now, b, prices, cap, n) && n <= k && cap >= 0.0
    ensures ExposedBook(now, b, prices, cap, k)
  {
    MulMono(cap, n as real, k as real);
  }

  lemma RunExposed(g: RunConfig, log: seq<Write>, r: Run, clock: int)
    requires g.cycle.Valid() && Healthy(g.initialCash, FillsOf(log), clock) && clock <= r.now && Distinct(r)
    ensures Rebuilt(g, log).Ok?
    ensures var b := Rebuilt(g, log).value;
            Exposed(Rebuilt(g, RunLog(g, log, r)), b, PricesOf(r), Cap(g, b, r), |r.symbols|)
  {
    RunReady(g, log, r, clock);
    var b, cap := Rebuilt(g, log).value, Cap(g, Rebuilt(g, log).value, r);
    var jobs := JobsOf(g, Started(log), b, r);
    var n := if Starts(g, Started(log), r) then Reached(g.cycle, jobs, 0) else 0;
    CapNonneg(g, b, r);
    RunCapped(g, Started(log), b, r);
    CyclesExposed(g.cycle, g.initialCash, Prepared(g, Started(log), b, r), b, jobs, r.now, PricesOf(r), cap, n);
    FewerCaps(Rebuilt(g, RunLog(g, log, r)).value, b, PricesOf(r), cap, n, |r.symbols|);
  }

  // ----- where the fills of a run come from -----

  /** Fill j is the planned fill of cycle m; at most m fills of the run precede it, none on its symbol. */
  ghost predicate AddedAt(c: CycleConfig, jobs: seq<Job>, fills: seq<Fill>, first: nat, j: nat, m: nat)
    requires c.Valid() && j < |fills| && m < |jobs|
  {
    && JobFill(c, jobs[m]) == Some(fills[j]) && j <= first + m
    && forall i :: first <= i < j ==> fills[i].symbol != fills[j].symbol
  }

  ghost predicate AddedBy(c: CycleConfig, jobs: seq<Job>, fills: seq<Fill>, first: nat, j: nat, n: nat)
    requires c.Valid() && j < |fills| && n <= |jobs|
  {
    exists m :: 0 <= m < n && AddedAt(c, jobs, fills, first, j, m)
  }

  ghost predicate Added(c: CycleConfig, jobs: seq<Job>, old_: seq<Fill>, fills: seq<Fill>, n: nat)
    requires c.Valid() && n <= |jobs|
  {
    && |old_| <= |fills| <= |old_| + n && fills[..|old_|] == old_
    && forall j :: |old_| <= j < |fills| ==> AddedBy(c, jobs, fills, |old_|, j, n)
  }

  lemma AddedSymbol(c: CycleConfig, jobs: seq<Job>, b: Book, now: int, fills: seq<Fill>, first: nat, j: nat, m: nat)
    requires c.Valid() && j < |fills| && m < |jobs| && AddedAt(c, jobs, fills, first, j, m) && Show(jobs, b, now)
    ensures fills[j].symbol == jobs[m].input.symbol
  {
    JobFillFits(c, jobs[m], b);
  }

  lemma AddedKept(c: CycleConfig, jobs: seq<Job>, fills: seq<Fill>, first: nat, j: nat, n: nat, rows: seq<Fill>)
    requires c.Valid() && j < |fills| && n < |jobs| && AddedBy(c, jobs, fills, first, j, n)
    ensures AddedBy(c, jobs, fills + rows, first, j, n + 1)
  {
    var m :| 0 <= m < n && AddedAt(c, jobs, fills, first, j, m);
    assert AddedAt(c, jobs, fills + rows, first, j, m);
  }

  lemma AddedLast(c: CycleConfig, jobs: seq<Job>, b: Book, now: int, old_: seq<Fill>, fills: seq<Fill>, n: nat)
    requires c.Valid() && n < |jobs| && Show(jobs, b, now) && DistinctJobs(jobs) && Added(c, jobs, old_, fills, n)
    requires JobFill(c, jobs[n]) != None
    ensures AddedBy(c, jobs, fills + [JobFill(c, jobs[n]).value], |old_|, |fills|, n + 1)
  {
    var f := JobFill(c, jobs[n]).value;
    JobFillFits(c, jobs[n], b);
    forall i | |old_| <= i < |fills| ensures fills[i].symbol != f.symbol {
      assert AddedBy(c, jobs, fills, |old_|, i, n);
      var m :| 0 <= m < n && AddedAt(c, jobs, fills, |old_|, i, m);
      AddedSymbol(c, jobs, b, now, fills, |old_|, i, m);
    }
    assert AddedAt(c, jobs, fills + [f], |old_|, |fills|, n);
  }

  lemma NothingNext(c: CycleConfig, jobs: seq<Job>, old_: seq<Fill>, fills: seq<Fill>, n: nat)
    requires c.Valid() && n < |jobs| && Added(c, jobs, old_, fills, n)
    ensures Added(c, jobs, old_, fills, n + 1)
  {
    var k := n + 1;
    forall j | |old_| <= j < |fills| ensures AddedBy(c, jobs, fills, |old_|, j, k) {
      AddedKept(c, jobs, fills, |old_|, j, n, []);
      assert fills + [] == fills;
    }
  }

  lemma PrefixKept(old_: seq<Fill>, fills: seq<Fill>, f: Fill)
    requires |old_| <= |fills| && fills[..|old_|] == old_
    ensures (fills + [f])[..|old_|] == old_
  {}

  lemma FillNext(c: CycleConfig, jobs: seq<Job>, b: Book, now: int, old_: seq<Fill>, fills: seq<Fill>, n: nat)
    requires c.Valid() && n < |jobs| && Show(jobs, b, now) && DistinctJobs(jobs) && Added(c, jobs, old_, fills, n)
    requires JobFill(c, jobs[n]) != None
    ensures Added(c, jobs, old_, fills + [JobFill(c, jobs[n]).value], n + 1)
  {
    var f, k := JobFill(c, jobs[n]).value, n + 1;
    var after := fills + [f];
    PrefixKept(old_, fills, f);
    forall j | |old_| <= j < |after| ensures AddedBy(c, jobs, after, |old_|, j, k) {
      if j < |fills| {
        AddedKept(c, jobs, fills, |old_|, j, n, [f]);
      } else {
        AddedLast(c, jobs, b, now, old_, fills, n);
      }
    }
  }

  lemma {:induction false} CyclesAdded(c: CycleConfig, log: seq<Write>, b: Book, jobs: seq<Job>, now: int, n: nat)
    requires c.Valid() && n <= |jobs| && Show(jobs, b, now) && DistinctJobs(jobs)
    ensures Added(c, jobs, FillsOf(log), FillsOf(CyclesLog(c, log, jobs, n)), n)
  {
    if n != 0 {
      var m := n - 1;
      CyclesAdded(c, log, b, jobs, now, m);
      CyclesFills(c, log, jobs, m);
      RowsFills(c, jobs[m]);
      var before := FillsOf(CyclesLog(c, log, jobs, m));
      if FillsOf(CycleRows(c, jobs[m])) == [] {
        NothingNext(c, jobs, FillsOf(log), before, m);
        assert before + [] == before;
      } else {
        FillNext(c, jobs, b, now, FillsOf(log), before, m);
      }
    }
  }

  /** Fill j of the log after the run was planned by a cycle of the run, from the snapshot of this log. */
  ghost predicate PlannedBy(g: RunConfig, log: seq<Write>, r: Run, j: nat, m: nat)
    requires g.cycle.Valid() && m < |r.symbols|
  {
    && Rebuilt(g, log).Ok? && Starts(g, Started(log), r) && j < |FillsOf(RunLog(g, log, r))|
    && AddedAt(g.cycle, JobsOf(g, Started(log), Rebuilt(g, log).value, r), FillsOf(RunLog(g, log, r)),
               |FillsOf(log)|, j, m)
  }

  /** Every fill a run adds is the planned fill of one of its cycles. */
  lemma RunFillsPlanned(g: RunConfig, log: seq<Write>, r: Run, clock: int, j: nat) returns (m: nat)
    requires g.cycle.Valid() && Healthy(g.initialCash, FillsOf(log), clock) && clock <= r.now && Distinct(r)
    requires |FillsOf(log)| <= j < |FillsOf(RunLog(g, log, r))|
    ensures m < |r.symbols| && PlannedBy(g, log, r, j, m)
  {
    RunReady(g, log, r, clock);
    RunFills(g, log, r);
    var b := Rebuilt(g, log).value;
    var jobs, fills := JobsOf(g, Started(log), b, r), FillsOf(RunLog(g, log, r));
    PreparedFills(g, Started(log), b, r);
    CyclesAdded(g.cycle, Prepared(g, Started(log), b, r), b, jobs, r.now, Reached(g.cycle, jobs, 0));
    assert AddedBy(g.cycle, jobs, fills, |FillsOf(log)|, j, Reached(g.cycle, jobs, 0));
    m :| 0 <= m < Reached(g.cycle, jobs, 0) && AddedAt(g.cycle, jobs, fills, |FillsOf(log)|, j, m);
  }

  /** A run keeps the fills that were there. */
  lemma RunKeepsFills(g: RunConfig, log: seq<Write>, r: Run, clock: int)
    requires g.cycle.Valid() && Healthy(g.initialCash, FillsOf(log), clock) && clock <= r.now && Distinct(r)
    ensures FillsOf(log) <= FillsOf(RunLog(g, log, r))
  {
    RunReady(g, log, r, clock);
    RunFills(g, log, r);
    var b := Rebuilt(g, log).value;
    var jobs := JobsOf(g, Started(log), b, r);
    PreparedFills(g, Started(log), b, r);
    CyclesAdded(g.cycle, Prepared(g, Started(log), b, r), b, jobs, r.now, Reached(g.cycle, jobs, 0));
  }

  /** A planned BUY is the entry of its cycle. */
  lemma PlannedBuy(g: RunConfig, log: seq<Write>, r: Run, j: nat, m: nat)
    requires g.cycle.Valid() && m < |r.symbols| && PlannedBy(g, log, r, j, m)
    requires FillsOf(RunLog(g, log, r))[j].side == BUY
    ensures var x, f := r.symbols[m], FillsOf(RunLog(g, log, r))[j];
            f.symbol == x.symbol && f.filledAt == r.now
            && EntryBuy(g.cycle, InputFor(g, Started(log), Rebuilt(g, log).value, r, x.symbol), x.view) == Some(f)
  {
    var x := r.symbols[m];
    var i := InputFor(g, Started(log), Rebuilt(g, log).value, r, x.symbol);
    if ExitSell(g.cycle, i) != None { ExitSellFacts(g.cycle, i); } else { EntryBuyFacts(g.cycle, i, x.view); }
  }

  /** Exposure bound: if a run over k distinct symbols buys `s`, then at the run's prices the open value ends
      below (max_total% + k * max_symbol%) of the snapshot equity, and `s` below 2 * max_symbol%. */
  lemma ExposureBound(g: RunConfig, log: seq<Write>, r: Run, clock: int, j: nat)
    requires g.cycle.Valid() && Healthy(g.initialCash, FillsOf(log), clock) && clock <= r.now && Distinct(r)
    requires |FillsOf(log)| <= j < |FillsOf(RunLog(g, log, r))| && FillsOf(RunLog(g, log, r))[j].side == BUY
    ensures Rebuilt(g, log).Ok? && Rebuilt(g, RunLog(g, log, r)).Ok?
    ensures var b, after := Rebuilt(g, log).value, Rebuilt(g, RunLog(g, log, r)).value;
            BelowLimits(AccountEquity(g, b, r), |r.symbols|, Value(after, PricesOf(r)),
                        SymbolValue(after, FillsOf(RunLog(g, log, r))[j].symbol, PricesOf(r)))
  {
    var m := RunFillsPlanned(g, log, r, clock, j);
    RunExposed(g, log, r, clock);
    PlannedBuy(g, log, r, j, m);
    BuyNeedsRoom(g, Started(log), Rebuilt(g, log).value, r, r.symbols[m]);
    var b := Rebuilt(g, log).value;
    RoomGivesLimits(AccountEquity(g, b, r), Cap(g, b, r), b, Rebuilt(g, RunLog(g, log, r)).value, PricesOf(r),
                    |r.symbols|, r.symbols[m].symbol);
  }

  /** The two exposure limits for a snapshot equity and a number of symbols. */
  ghost predicate BelowLimits(e: real, k: nat, total: real, symbolValue: real) {
    && SelectRiskProfile(e, DEFAULT_PROFILES).Ok?
    && var p := SelectRiskProfile(e, DEFAULT_PROFILES).value;
    && 100.0 * total < (p.totalPositionPct + k as real * p.symbolPositionPct) * e
    && symbolValue < 2.0 * SymbolCap(e, p)
  }

  lemma ExposedAt(after: Book, b: Book, prices: map<string, real>, cap: real, n: nat, s: string)
    requires ExposedBook(after, b, prices, cap, n) && s in prices
    ensures Value(after, prices) <= Value(b, prices) + n as real * cap
    ensures SymbolValue(after, s, prices) <= SymbolValue(b, s, prices) + cap
  {}

  lemma RoomGivesLimits(e: real, cap: real, b: Book, after: Book, prices: map<string, real>, k: nat, s: string)
    requires cap == CapAt(e) && ExposedBook(after, b, prices, cap, k) && s in prices
    requires Allows(e, Value(b, prices), SymbolValue(b, s, prices))
    ensures BelowLimits(e, k, Value(after, prices), SymbolValue(after, s, prices))
  {
    ExposedAt(after, b, prices, cap, k, s);
    ScalarLimits(e, k, Value(b, prices), Value(after, prices), SymbolValue(b, s, prices),
                 SymbolValue(after, s, prices), cap);
  }

  lemma ScalarLimits(e: real, k: nat, start: real, end: real, symbolStart: real, symbolEnd: real, cap: real)
    requires Allows(e, start, symbolStart)
    requires cap == CapAt(e) && end <= start + k as real * cap && symbolEnd <= symbolStart + cap
    ensures BelowLimits(e, k, end, symbolEnd)
  {
    var p := SelectRiskProfile(e, DEFAULT_PROFILES).value;
    LimitsAlgebra(e, p, k, start, end);
    TwoCaps(symbolStart, symbolEnd, SymbolCap(e, p));
  }

  lemma TwoCaps(start: real, end: real, cap: real)
    requires start < cap && end <= start + cap
    ensures end < 2.0 * cap
  {}

  lemma LimitsAlgebra(e: real, p: RiskProfile, k: nat, start: real, end: real)
    requires 100.0 * start < p.totalPositionPct * e && end <= start + k as real * SymbolCap(e, p)
    ensures 100.0 * end < (p.totalPositionPct + k as real * p.symbolPositionPct) * e
  {
    var c, n := SymbolCap(e, p), k as real;
    assert 100.0 * c == e * p.symbolPositionPct;
    assert 100.0 * (n * c) == n * (e * p.symbolPositionPct);
  }
}
