/** trading/runtime/runner.py: every run rebuilds the account from the fill log, takes one snapshot, and
    runs one cycle per symbol against that snapshot. Any step may raise. */
module Runner {
  import opened Prelude
  import opened Sums
  import opened StableSort
  import opened Ledger
  import opened Accounting
  import opened Risk
  import opened PaperExecution
  import opened Gate
  import opened TradingLog
  import opened PaperCycle

  datatype RunConfig = RunConfig(cycle: CycleConfig, initialCash: real)

  datatype Candle = Candle(close: real, openTime: int)

  /** How far the handler of a raising cycle gets. */
  datatype Handler = RowFails | NotifierRaises | Completes

  /** One symbol's turn: its latest candle, what its cycle reads besides the snapshot, how many of the cycle's
      writes get through, and the handler in case the cycle raises. */
  datatype SymbolRun = SymbolRun(symbol: string, candle: Option<Candle>, view: View, budget: nat, handler: Handler)

  /** What raises before the first cycle, besides the replay. */
  datatype Setup = StartFails | QueryFails | BaselineFails | NothingFails

  /** One `run_once`; `finishes` says whether its last row gets through. */
  datatype Run = Run(now: int, setup: Setup, symbols: seq<SymbolRun>, finishes: bool)

  /** A cycle's input next to what the cycle will meet. */
  datatype Job = Job(input: CycleInput, turn: SymbolRun)

  const SECONDS_PER_DAY := 86400
  const STALE_SECONDS := 1800
  const RECENT_ORDERS := 1000
  const RECENT_FILLS := 10

  function DayOf(t: int): int { t / SECONDS_PER_DAY }

  function Midnight(now: int): int { DayOf(now) * SECONDS_PER_DAY }

  // ----- the market -----

  function Latest(turns: seq<SymbolRun>): map<string, Candle> {
    if |turns| == 0 then map[]
    else
      var before, x := Latest(turns[..|turns| - 1]), turns[|turns| - 1];
      if x.candle == None then before else before[x.symbol := x.candle.value]
  }

  function PricesOf(r: Run): map<string, real> { map s | s in Latest(r.symbols) :: Latest(r.symbols)[s].close }

  /** The first symbol with a candle; its candle alone decides freshness. */
  function FirstQuoted(turns: seq<SymbolRun>): (first: Option<string>)
    ensures first == None <==> Latest(turns) == map[]
    ensures first != None ==> first.value in Latest(turns)
  {
    if |turns| == 0 then None
    else if FirstQuoted(turns[..|turns| - 1]) != None then FirstQuoted(turns[..|turns| - 1])
    else if turns[|turns| - 1].candle == None then None
    else
      var s := turns[|turns| - 1].symbol;
      assert s in Latest(turns);
      Some(s)
  }

  predicate IsFresh(r: Run) {
    FirstQuoted(r.symbols) != None
    && r.now - Latest(r.symbols)[FirstQuoted(r.symbols).value].openTime < STALE_SECONDS
  }

  // ----- the account -----

  function FilledAt(f: Fill): int { f.filledAt }

  /** ORDER BY filled_at, id. */
  function Chronological(fills: seq<Fill>): seq<Fill> { Sort(fills, FilledAt) }

  ghost function Rebuilt(g: RunConfig, log: seq<Write>): Result<Book, LedgerError> {
    Replay(g.initialCash, Chronological(FillsOf(log)))
  }

  ghost function AccountEquity(g: RunConfig, b: Book, r: Run): real { Max(Equity(b, PricesOf(r)), g.initialCash) }

  function Pct(value: real, equity: real): real { if equity > 0.0 then value / equity * 100.0 else 0.0 }

  function SymbolValue(b: Book, s: string, prices: map<string, real>): real {
    if s in b.positions then Worth(s, b.positions[s], prices) else 0.0
  }

  function Held(b: Book, s: string): Option<Position> { if s in b.positions then Some(b.positions[s]) else None }

  // ----- the counters -----

  function CreatedAt(o: Order): int { o.createdAt }

  function LastOrders(orders: seq<Order>): seq<Order> {
    if |orders| <= RECENT_ORDERS then orders else orders[|orders| - RECENT_ORDERS..]
  }

  /** The last thousand orders by creation time; the program lists them newest first and only counts them. */
  function RecentOrders(log: seq<Write>): seq<Order> { LastOrders(Sort(OrdersOf(log), CreatedAt)) }

  function Since(t: int): Order -> bool { (o: Order) => o.createdAt >= t }

  function OfSymbol(s: string): Order -> bool { (o: Order) => o.symbol == s }

  function OrdersToday(log: seq<Write>, now: int): seq<Order> { Filter(RecentOrders(log), Since(Midnight(now))) }

  function LastFills(fills: seq<Fill>): seq<Fill> {
    if |fills| <= RECENT_FILLS then fills else fills[|fills| - RECENT_FILLS..]
  }

  /** Newest first, the fills of open symbols count as long as the symbol is below its average price. */
  function LossStreak(fills: seq<Fill>, ps: map<string, Position>, prices: map<string, real>): nat {
    if |fills| == 0 then 0
    else
      var s, earlier := fills[|fills| - 1].symbol, fills[..|fills| - 1];
      if s !in ps then LossStreak(earlier, ps, prices)
      else if Mark(s, ps[s], prices) < ps[s].avg then 1 + LossStreak(earlier, ps, prices)
      else 0
  }

  function Streak(log: seq<Write>, b: Book, r: Run): nat {
    LossStreak(LastFills(Chronological(FillsOf(log))), b.positions, PricesOf(r))
  }

  function OpenIn(ps: map<string, Position>): Fill -> bool { (f: Fill) => f.symbol in ps }

  /** The streak sees open positions only: the fills of closed symbols never change it. */
  lemma {:induction false} StreakSeesOpenOnly(fills: seq<Fill>, ps: map<string, Position>, prices: map<string, real>)
    ensures LossStreak(Filter(fills, OpenIn(ps)), ps, prices) == LossStreak(fills, ps, prices)
  {
    if |fills| != 0 {
      var earlier, f := fills[..|fills| - 1], fills[|fills| - 1];
      StreakSeesOpenOnly(earlier, ps, prices);
      if f.symbol in ps {
        var kept := Filter(earlier, OpenIn(ps));
        assert (kept + [f])[..|kept|] == kept;
      }
    }
  }

  /** It is positive exactly when the newest fill of an open symbol is of one below its average price. */
  lemma {:induction false} StreakPositiveIff(fills: seq<Fill>, ps: map<string, Position>, prices: map<string, real>)
    ensures LossStreak(fills, ps, prices) > 0
            <==> var open := Filter(fills, OpenIn(ps));
                 open != [] && open[|open| - 1].symbol in ps
                 && Mark(open[|open| - 1].symbol, ps[open[|open| - 1].symbol], prices) < ps[open[|open| - 1].symbol].avg
  {
    if |fills| != 0 { StreakPositiveIff(fills[..|fills| - 1], ps, prices); }
  }

  // ----- the day's baseline -----

  function LatestBaseline(log: seq<Write>): Option<Write> {
    if |log| == 0 then None
    else if log[|log| - 1].BaselineRow? then Some(log[|log| - 1])
    else LatestBaseline(log[..|log| - 1])
  }

  predicate HasBaseline(log: seq<Write>, day: int) {
    LatestBaseline(log) != None && LatestBaseline(log).value.BaselineRow? && LatestBaseline(log).value.day == day
  }

  function DayStart(log: seq<Write>, now: int, equity: real): real {
    if HasBaseline(log, DayOf(now)) then LatestBaseline(log).value.amount else Max(equity, 0.0)
  }

  function BaselineRows(log: seq<Write>, now: int, equity: real): seq<Write> {
    if HasBaseline(log, DayOf(now)) then [] else [BaselineRow(DayOf(now), Max(equity, 0.0))]
  }

  // ----- the inputs of a run -----

  ghost function RunDayStart(g: RunConfig, log: seq<Write>, b: Book, r: Run): real {
    DayStart(log, r.now, AccountEquity(g, b, r))
  }

  /** What the inputs of all symbols share; the two fields of a single symbol are zero here. */
  ghost function SharedFor(g: RunConfig, log: seq<Write>, b: Book, r: Run): Snapshot {
    var equity := AccountEquity(g, b, r);
    Snapshot(equity, RunDayStart(g, log, b, r), Pct(Value(b, PricesOf(r)), equity), 0.0, |b.positions|,
             |OrdersToday(log, r.now)|, 0, Streak(log, b, r), IsFresh(r), false)
  }

  function TradesToday(log: seq<Write>, now: int, s: string): nat { |Filter(OrdersToday(log, now), OfSymbol(s))| }

  function InputWith(shared: Snapshot, trades: nat, b: Book, prices: map<string, real>, now: int, s: string)
    : CycleInput
  {
    CycleInput(s, now, prices,
               shared.(symbolPct := Pct(SymbolValue(b, s, prices), shared.equity), symbolDailyTrades := trades),
               Held(b, s))
  }

  ghost function InputFor(g: RunConfig, log: seq<Write>, b: Book, r: Run, s: string): CycleInput {
    InputWith(SharedFor(g, log, b, r), TradesToday(log, r.now, s), b, PricesOf(r), r.now, s)
  }

  /** All inputs are built from one log before the first cycle runs. */
  ghost function JobsOf(g: RunConfig, log: seq<Write>, b: Book, r: Run): (jobs: seq<Job>)
    ensures |jobs| == |r.symbols|
    ensures forall n :: 0 <= n < |jobs| ==> jobs[n] == Job(InputFor(g, log, b, r, r.symbols[n].symbol), r.symbols[n])
  {
    seq(|r.symbols|, n requires 0 <= n < |r.symbols| =>
      Job(InputFor(g, log, b, r, r.symbols[n].symbol), r.symbols[n]))
  }

  // ----- the cycles of a run -----

  function PlanOf(c: CycleConfig, j: Job): Plan
    requires c.Valid()
  {
    CyclePlan(c, j.input, j.turn.view)
  }

  predicate Raises(c: CycleConfig, j: Job)
    requires c.Valid()
  {
    j.turn.budget < |PlanOf(c, j).writes| || PlanOf(c, j).end.Err?
  }

  /** The cycle raises and so does its handler: the run ends here. */
  predicate Escapes(c: CycleConfig, j: Job)
    requires c.Valid()
  {
    Raises(c, j) && j.turn.handler != Completes
  }

  /** The rows of one cycle: all of its plan, or the part before the fault and an error row. */
  function CycleRows(c: CycleConfig, j: Job): seq<Write>
    requires c.Valid()
  {
    Upto(PlanOf(c, j).writes, j.turn.budget)
    + (if Raises(c, j) && j.turn.handler != RowFails then [RunnerRow(CycleError)] else [])
  }

  function ErrorResult(symbol: string): CycleResult {
    CycleResult(symbol, StatusError, false, None, false, ["cycle_error"], [], None, false)
  }

  /** What a cycle that does not escape adds to the results of its run. */
  function ResultOf(c: CycleConfig, log: seq<Write>, j: Job): CycleResult
    requires c.Valid()
  {
    if Raises(c, j) then ErrorResult(j.input.symbol)
    else PlanOf(c, j).end.value.(eventIds := TrackedIds(EventCount(log), PlanOf(c, j).writes))
  }

  function CyclesLog(c: CycleConfig, log: seq<Write>, jobs: seq<Job>, n: nat): seq<Write>
    requires c.Valid() && n <= |jobs|
  {
    if n == 0 then log else CyclesLog(c, log, jobs, n - 1) + CycleRows(c, jobs[n - 1])
  }

  /** The number of cycles begun: up to and including the first one that escapes. */
  function Reached(c: CycleConfig, jobs: seq<Job>, n: nat): (reached: nat)
    requires c.Valid() && n <= |jobs|
    ensures n <= reached <= |jobs|
    decreases |jobs| - n
  {
    if n == |jobs| then n else if Escapes(c, jobs[n]) then n + 1 else Reached(c, jobs, n + 1)
  }

  predicate Escaped(c: CycleConfig, jobs: seq<Job>)
    requires c.Valid()
  {
    exists n :: 0 <= n < |jobs| && Escapes(c, jobs[n])
  }

  // ----- one run -----

  function Started(log: seq<Write>): seq<Write> { log + [RunnerRow(LoopStarted)] }

  /** The account replays and the baseline is there or gets written. */
  ghost predicate Starts(g: RunConfig, log: seq<Write>, r: Run) {
    && Rebuilt(g, log).Ok? && r.setup != StartFails && r.setup != QueryFails
    && (r.setup == BaselineFails ==> HasBaseline(log, DayOf(r.now)))
  }

  ghost function Prepared(g: RunConfig, log: seq<Write>, b: Book, r: Run): seq<Write> {
    log + BaselineRows(log, r.now, AccountEquity(g, b, r))
  }

  ghost predicate Ends(g: RunConfig, log: seq<Write>, b: Book, r: Run)
    requires g.cycle.Valid()
  {
    r.finishes && !Escaped(g.cycle, JobsOf(g, log, b, r))
  }

  ghost function CycledLog(g: RunConfig, log: seq<Write>, b: Book, r: Run): seq<Write>
    requires g.cycle.Valid()
  {
    var jobs := JobsOf(g, log, b, r);
    CyclesLog(g.cycle, Prepared(g, log, b, r), jobs, Reached(g.cycle, jobs, 0))
  }

  /** From the log with the run's first row in it. */
  ghost function StartedLog(g: RunConfig, log: seq<Write>, r: Run): seq<Write>
    requires g.cycle.Valid()
  {
    if !Starts(g, log, r) then log
    else
      var b := Rebuilt(g, log).value;
      CycledLog(g, log, b, r) + (if Ends(g, log, b, r) then [RunnerRow(LoopFinished)] else [])
  }

  ghost function RunLog(g: RunConfig, log: seq<Write>, r: Run): seq<Write>
    requires g.cycle.Valid()
  {
    if r.setup == StartFails then log else StartedLog(g, Started(log), r)
  }

  ghost predicate RunRaises(g: RunConfig, log: seq<Write>, r: Run)
    requires g.cycle.Valid()
  {
    !Starts(g, Started(log), r) || !Ends(g, Started(log), Rebuilt(g, Started(log)).value, r)
  }

  // ----- the life of a log -----

  /** A row written between runs, or a run. */
  datatype Step = Row(kind: RunnerKind) | Once(run: Run)

  ghost function AfterStep(g: RunConfig, log: seq<Write>, s: Step): seq<Write>
    requires g.cycle.Valid()
  {
    match s
    case Row(kind) => log + [RunnerRow(kind)]
    case Once(r) => RunLog(g, log, r)
  }

  ghost function After(g: RunConfig, log: seq<Write>, steps: seq<Step>): seq<Write>
    requires g.cycle.Valid()
  {
    if |steps| == 0 then log else AfterStep(g, After(g, log, steps[..|steps| - 1]), steps[|steps| - 1])
  }

  // ----- the imperative run -----

  datatype RunFault = Unwritten | QueryFailed | ReplayFailed(error: LedgerError) | CycleEscaped

  method GetOrCreateDayBaseline(store: TradingStore, now: int, equity: real) returns (dayStart: Result<real, Fault>)
    modifies store
    ensures HasBaseline(old(store.log), DayOf(now)) || old(store.budget) > 0
            ==> dayStart == Ok(DayStart(old(store.log), now, equity))
                && store.log == old(store.log) + BaselineRows(old(store.log), now, equity)
    ensures !HasBaseline(old(store.log), DayOf(now)) && old(store.budget) == 0
            ==> dayStart.Err? && store.log == old(store.log)
  {
    var latest := LatestBaseline(store.log);
    if latest != None && latest.value.BaselineRow? && latest.value.day == DayOf(now) {
      return Ok(latest.value.amount);
    }
    var baseline := Max(equity, 0.0);
    var recorded := store.Record(BaselineRow(DayOf(now), baseline));
    if recorded.Err? { return Err(StoreFault); }
    return Ok(baseline);
  }

  /** The latest candles as a dictionary, and the symbol it lists first. */
  method ReadMarket(turns: seq<SymbolRun>) returns (latest: map<string, Candle>, first: Option<string>)
    ensures latest == Latest(turns) && first == FirstQuoted(turns)
  {
    latest, first := map[], None;
    var i := 0;
    while i < |turns|
      invariant 0 <= i <= |turns|
      invariant latest == Latest(turns[..i]) && first == FirstQuoted(turns[..i])
    {
      assert turns[..i + 1][..i] == turns[..i];
      if turns[i].candle != None {
        if latest == map[] { first := Some(turns[i].symbol); }
        latest := latest[turns[i].symbol := turns[i].candle.value];
      }
      i := i + 1;
    }
    assert turns[..i] == turns;
  }

  function CountFor(counts: map<string, nat>, s: string): nat { if s in counts then counts[s] else 0 }

  method CountBySymbol(orders: seq<Order>) returns (counts: map<string, nat>)
    ensures forall s :: CountFor(counts, s) == |Filter(orders, OfSymbol(s))|
  {
    counts := map[];
    var i := 0;
    while i < |orders|
      invariant 0 <= i <= |orders|
      invariant forall s :: CountFor(counts, s) == |Filter(orders[..i], OfSymbol(s))|
    {
      assert orders[..i + 1] == orders[..i] + [orders[i]];
      forall s ensures |Filter(orders[..i + 1], OfSymbol(s))|
                    == |Filter(orders[..i], OfSymbol(s))| + if orders[i].symbol == s then 1 else 0
      {
        FilterSnoc(orders[..i], orders[i], OfSymbol(s));
      }
      counts := counts[orders[i].symbol := CountFor(counts, orders[i].symbol) + 1];
      i := i + 1;
    }
    assert orders[..i] == orders;
  }

  method CountLosses(fills: seq<Fill>, ps: map<string, Position>, prices: map<string, real>) returns (losses: nat)
    ensures losses == LossStreak(fills, ps, prices)
  {
    losses := 0;
    var i := |fills|;
    assert fills[..i] == fills;
    while i > 0
      invariant 0 <= i <= |fills|
      invariant losses + LossStreak(fills[..i], ps, prices) == LossStreak(fills, ps, prices)
    {
      assert fills[..i][..i - 1] == fills[..i - 1];
      i := i - 1;
      var s := fills[i].symbol;
      if s !in ps { continue; }
      var current := if s in prices then prices[s] else ps[s].avg;
      if current >= ps[s].avg { break; }
      losses := losses + 1;
    }
  }

  method ListJobs(shared: Snapshot, counts: map<string, nat>, b: Book, prices: map<string, real>, now: int,
                  turns: seq<SymbolRun>)
    returns (jobs: seq<Job>)
    ensures |jobs| == |turns|
    ensures forall n :: 0 <= n < |jobs| ==>
              jobs[n] == Job(InputWith(shared, CountFor(counts, turns[n].symbol), b, prices, now, turns[n].symbol),
                             turns[n])
  {
    jobs := [];
    var n := 0;
    while n < |turns|
      invariant 0 <= n <= |turns| && |jobs| == n
      invariant forall m :: 0 <= m < n ==>
                  jobs[m] == Job(InputWith(shared, CountFor(counts, turns[m].symbol), b, prices, now, turns[m].symbol),
                                 turns[m])
    {
      var s := turns[n].symbol;
      var symbolPct := Pct(SymbolValue(b, s, prices), shared.equity);
      var risk := shared.(symbolPct := symbolPct, symbolDailyTrades := CountFor(counts, s));
      jobs := jobs + [Job(CycleInput(s, now, prices, risk, Held(b, s)), turns[n])];
      n := n + 1;
    }
  }

  /** Everything in the snapshot but the baseline. */
  method Measure(log: seq<Write>, account: PortfolioAccount, g: RunConfig, r: Run)
    returns (shared: Snapshot, counts: map<string, nat>, prices: map<string, real>)
    ensures shared == SharedFor(g, log, account.Snapshot(), r).(dayStart := 0.0)
    ensures forall s :: CountFor(counts, s) == TradesToday(log, r.now, s)
    ensures prices == PricesOf(r)
  {
    var latest, first := ReadMarket(r.symbols);
    prices := map s | s in latest :: latest[s].close;
    var isFresh := first != None && r.now - latest[first.value].openTime < STALE_SECONDS;
    var totalValue := SumValues(ValuesOf(account.positions, prices));
    var totalEquity := account.TotalEquity(prices);
    var equity := Max(totalEquity, g.initialCash);
    var today := OrdersToday(log, r.now);
    counts := CountBySymbol(today);
    var losses := CountLosses(LastFills(Chronological(FillsOf(log))), account.positions, prices);
    shared := Snapshot(equity, 0.0, Pct(totalValue, equity), 0.0, |account.positions|, |today|, 0,
                       losses, isFresh, false);
  }

  /** The inputs as the runner builds them, for all symbols; the baseline row is the only write. */
  method BuildInputs(store: TradingStore, account: PortfolioAccount, g: RunConfig, r: Run)
    returns (jobs: Result<seq<Job>, RunFault>)
    requires r.setup in {BaselineFails, NothingFails} && Rebuilt(g, store.log) == Ok(account.Snapshot())
    modifies store
    ensures jobs.Ok? <==> Starts(g, old(store.log), r)
    ensures jobs.Ok? ==> jobs.value == JobsOf(g, old(store.log), account.Snapshot(), r)
                         && store.log == Prepared(g, old(store.log), account.Snapshot(), r)
    ensures jobs.Err? ==> jobs.error == Unwritten && store.log == old(store.log)
  {
    var b := account.Snapshot();
    var shared, counts, prices := Measure(store.log, account, g, r);
    store.Weather(if r.setup == BaselineFails then 0 else 1);
    var dayStart := GetOrCreateDayBaseline(store, r.now, shared.equity);
    if dayStart.Err? { return Err(Unwritten); }
    var built := ListJobs(shared.(dayStart := dayStart.value), counts, b, prices, r.now, r.symbols);
    return Ok(built);
  }

  /** One guarded cycle. A raising cycle becomes an error result, unless its handler raises too. */
  method RunGuarded(store: TradingStore, c: CycleConfig, j: Job) returns (result: Result<CycleResult, RunFault>)
    requires c.Valid()
    modifies store
    ensures store.log == old(store.log) + CycleRows(c, j)
    ensures result.Err? <==> Escapes(c, j)
    ensures result.Ok? ==> result.value == ResultOf(c, old(store.log), j)
  {
    store.Weather(j.turn.budget);
    var cycled := RunPaperCycle(store, c, j.input, j.turn.view);
    if cycled.Ok? {
      assert [] + TrackedIds(EventCount(old(store.log)), PlanOf(c, j).writes)
          == TrackedIds(EventCount(old(store.log)), PlanOf(c, j).writes);
      return Ok(cycled.value);
    }
    store.Weather(if j.turn.handler == RowFails then 0 else 1);
    var recorded := store.Record(RunnerRow(CycleError));
    if recorded.Err? || j.turn.handler == NotifierRaises { return Err(CycleEscaped); }
    return Ok(ErrorResult(j.input.symbol));
  }

  ghost predicate NoneEscapes(c: CycleConfig, jobs: seq<Job>, n: nat)
    requires c.Valid() && n <= |jobs|
  {
    forall m :: 0 <= m < n ==> !Escapes(c, jobs[m])
  }

  lemma {:induction false} ReachedAfter(c: CycleConfig, jobs: seq<Job>, n: nat)
    requires c.Valid() && n <= |jobs| && NoneEscapes(c, jobs, n)
    ensures Reached(c, jobs, 0) == Reached(c, jobs, n)
  {
    if n != 0 { ReachedAfter(c, jobs, n - 1); }
  }

  ghost function ResultAt(c: CycleConfig, log: seq<Write>, jobs: seq<Job>, n: nat): CycleResult
    requires c.Valid() && n < |jobs|
  {
    ResultOf(c, CyclesLog(c, log, jobs, n), jobs[n])
  }

  ghost predicate ResultsOf(results: seq<CycleResult>, c: CycleConfig, log: seq<Write>, jobs: seq<Job>)
    requires c.Valid() && |results| <= |jobs|
  {
    forall n :: 0 <= n < |results| ==> results[n] == ResultAt(c, log, jobs, n)
  }

  lemma CyclesStep(c: CycleConfig, log: seq<Write>, jobs: seq<Job>, n: nat)
    requires c.Valid() && n < |jobs|
    ensures CyclesLog(c, log, jobs, n + 1) == CyclesLog(c, log, jobs, n) + CycleRows(c, jobs[n])
  {}

  lemma ReachedEnd(c: CycleConfig, jobs: seq<Job>, n: nat)
    requires c.Valid() && n <= |jobs| && NoneEscapes(c, jobs, n) && (n < |jobs| ==> Escapes(c, jobs[n]))
    ensures Reached(c, jobs, 0) == (if n < |jobs| then n + 1 else n)
    ensures Escaped(c, jobs) <==> n < |jobs|
  {
    ReachedAfter(c, jobs, n);
  }

  lemma ResultsNext(c: CycleConfig, log: seq<Write>, jobs: seq<Job>, done: seq<CycleResult>)
    requires c.Valid() && |done| < |jobs| && ResultsOf(done, c, log, jobs)
    ensures ResultsOf(done + [ResultAt(c, log, jobs, |done|)], c, log, jobs)
  {
    var more := done + [ResultAt(c, log, jobs, |done|)];
    forall n | 0 <= n < |more| ensures more[n] == ResultAt(c, log, jobs, n) {
      if n < |done| { assert more[n] == done[n]; }
    }
  }

  lemma NoneNext(c: CycleConfig, jobs: seq<Job>, n: nat)
    requires c.Valid() && n < |jobs| && NoneEscapes(c, jobs, n)
    ensures !Escapes(c, jobs[n]) ==> NoneEscapes(c, jobs, n + 1)
  {}

  method RunCycles(store: TradingStore, c: CycleConfig, jobs: seq<Job>)
    returns (results: Result<seq<CycleResult>, RunFault>)
    requires c.Valid()
    modifies store
    ensures store.log == CyclesLog(c, old(store.log), jobs, Reached(c, jobs, 0))
    ensures results.Err? <==> Escaped(c, jobs)
    ensures results.Ok? ==> |results.value| == |jobs| && ResultsOf(results.value, c, old(store.log), jobs)
  {
    ghost var log := store.log;
    var done: seq<CycleResult> := [];
    while |done| < |jobs|
      invariant |done| <= |jobs| && store.log == CyclesLog(c, log, jobs, |done|)
      invariant NoneEscapes(c, jobs, |done|) && ResultsOf(done, c, log, jobs)
    {
      CyclesStep(c, log, jobs, |done|);
      NoneNext(c, jobs, |done|);
      ResultsNext(c, log, jobs, done);
      var result := RunGuarded(store, c, jobs[|done|]);
      if result.Err? {
        ReachedEnd(c, jobs, |done|);
        return Err(CycleEscaped);
      }
      done := done + [result.value];
    }
    ReachedEnd(c, jobs, |done|);
    return Ok(done);
  }

  /** What a run that raises lets out, from the log with its first row in it. */
  ghost function StartedFault(g: RunConfig, log: seq<Write>, r: Run): RunFault
    requires g.cycle.Valid()
  {
    if r.setup == QueryFails then QueryFailed
    else match Rebuilt(g, log)
      case Err(e) => ReplayFailed(e)
      case Ok(b) => if Starts(g, log, r) && Escaped(g.cycle, JobsOf(g, log, b, r)) then CycleEscaped else Unwritten
  }

  ghost function FaultOf(g: RunConfig, log: seq<Write>, r: Run): RunFault
    requires g.cycle.Valid()
  {
    if r.setup == StartFails then Unwritten else StartedFault(g, Started(log), r)
  }

  /** Cycle by cycle, the results of a run that does not raise. */
  ghost predicate RunResults(results: seq<CycleResult>, g: RunConfig, log: seq<Write>, r: Run)
    requires g.cycle.Valid()
  {
    && Rebuilt(g, log).Ok? && |results| == |r.symbols|
    && var b := Rebuilt(g, log).value;
       ResultsOf(results, g.cycle, Prepared(g, log, b, r), JobsOf(g, log, b, r))
  }

  /** All cycles, and the last row. */
  method RunToEnd(store: TradingStore, c: CycleConfig, jobs: seq<Job>, finishes: bool)
    returns (results: Result<seq<CycleResult>, RunFault>)
    requires c.Valid()
    modifies store
    ensures store.log == CyclesLog(c, old(store.log), jobs, Reached(c, jobs, 0))
                         + (if finishes && !Escaped(c, jobs) then [RunnerRow(LoopFinished)] else [])
    ensures results.Ok? <==> finishes && !Escaped(c, jobs)
    ensures results.Err? ==> results.error == if Escaped(c, jobs) then CycleEscaped else Unwritten
    ensures results.Ok? ==> |results.value| == |jobs| && ResultsOf(results.value, c, old(store.log), jobs)
  {
    var collected := RunCycles(store, c, jobs);
    assert store.log + [] == store.log;
    if collected.Err? { return Err(CycleEscaped); }
    store.Weather(if finishes then 1 else 0);
    var finished := store.Record(RunnerRow(LoopFinished));
    if finished.Err? { return Err(Unwritten); }
    return Ok(collected.value);
  }

  /** The run once its account is rebuilt. */
  method RunRebuilt(store: TradingStore, account: PortfolioAccount, g: RunConfig, r: Run)
    returns (results: Result<seq<CycleResult>, RunFault>)
    requires g.cycle.Valid()
    requires r.setup in {BaselineFails, NothingFails} && Rebuilt(g, store.log) == Ok(account.Snapshot())
    modifies store
    ensures store.log == StartedLog(g, old(store.log), r)
    ensures results.Ok? <==> Starts(g, old(store.log), r) && Ends(g, old(store.log), account.Snapshot(), r)
    ensures results.Err? ==> results.error == StartedFault(g, old(store.log), r)
    ensures results.Ok? ==> RunResults(results.value, g, old(store.log), r)
  {
    var jobs := BuildInputs(store, account, g, r);
    if jobs.Err? { return Err(jobs.error); }
    results := RunToEnd(store, g.cycle, jobs.value, r.finishes);
  }

  /** Raises exactly as specified, and otherwise returns what every cycle returned. */
  method RunOnce(store: TradingStore, g: RunConfig, r: Run) returns (results: Result<seq<CycleResult>, RunFault>)
    requires g.cycle.Valid()
    modifies store
    ensures store.log == RunLog(g, old(store.log), r)
    ensures results.Err? <==> RunRaises(g, old(store.log), r)
    ensures results.Err? ==> results.error == FaultOf(g, old(store.log), r)
    ensures results.Ok? ==> RunResults(results.value, g, Started(old(store.log)), r)
  {
    store.Weather(if r.setup == StartFails then 0 else 1);
    var started := store.Record(RunnerRow(LoopStarted));
    if started.Err? { return Err(Unwritten); }
    if r.setup == QueryFails { return Err(QueryFailed); }
    var account, raised := Rebuild(g.initialCash, Chronological(FillsOf(store.log)));
    if raised != None { return Err(ReplayFailed(raised.value)); }
    results := RunRebuilt(store, account, g, r);
  }

  // ----- the loop -----

  /** One iteration: a run, and the loop's own handler in case the run raises. */
  datatype Tick = Tick(run: Run, handler: Handler)

  /** The stop flag goes up after these iterations; the first and the last row may fail. */
  datatype Loop = Loop(starts: bool, ticks: seq<Tick>, stops: bool)

  datatype LoopError = BadInterval | LoopUnwritten | TickEscaped

  ghost function TickSteps(g: RunConfig, log: seq<Write>, t: Tick): seq<Step>
    requires g.cycle.Valid()
  {
    [Once(t.run)] + (if RunRaises(g, log, t.run) && t.handler != RowFails then [Row(CycleError)] else [])
  }

  ghost predicate TickEscapes(g: RunConfig, log: seq<Write>, t: Tick)
    requires g.cycle.Valid()
  {
    RunRaises(g, log, t.run) && t.handler != Completes
  }

  /** The steps of the first n iterations, after the loop's first row. */
  ghost function LoopSteps(g: RunConfig, log: seq<Write>, ticks: seq<Tick>, n: nat): seq<Step>
    requires g.cycle.Valid() && n <= |ticks|
  {
    if n == 0 then [Row(RunnerStarted)]
    else
      var before := LoopSteps(g, log, ticks, n - 1);
      before + TickSteps(g, After(g, log, before), ticks[n - 1])
  }

  function TickLimit(ticks: seq<Tick>, maxCycles: Option<int>): nat {
    if maxCycles == None || maxCycles.value >= |ticks| then |ticks|
    else if maxCycles.value < 0 then 0 else maxCycles.value
  }

  lemma AfterSnoc(g: RunConfig, log: seq<Write>, steps: seq<Step>, s: Step)
    requires g.cycle.Valid()
    ensures After(g, log, steps + [s]) == AfterStep(g, After(g, log, steps), s)
  {
    assert (steps + [s])[..|steps|] == steps;
  }

  lemma AfterNext(g: RunConfig, log: seq<Write>, steps: seq<Step>, n: nat)
    requires g.cycle.Valid() && n < |steps|
    ensures After(g, log, steps[..n + 1]) == AfterStep(g, After(g, log, steps[..n]), steps[n])
  {
    assert steps[..n + 1] == steps[..n] + [steps[n]];
    AfterSnoc(g, log, steps[..n], steps[n]);
  }

  ghost function TickLog(g: RunConfig, log: seq<Write>, t: Tick): seq<Write>
    requires g.cycle.Valid()
  {
    RunLog(g, log, t.run)
    + if RunRaises(g, log, t.run) && t.handler != RowFails then [RunnerRow(CycleError)] else []
  }

  lemma AfterTick(g: RunConfig, log: seq<Write>, steps: seq<Step>, t: Tick)
    requires g.cycle.Valid()
    ensures After(g, log, steps + TickSteps(g, After(g, log, steps), t)) == TickLog(g, After(g, log, steps), t)
  {
    AfterSnoc(g, log, steps, Once(t.run));
    AfterSnoc(g, log, steps + [Once(t.run)], Row(CycleError));
    assert steps + [Once(t.run)] + [Row(CycleError)] == steps + ([Once(t.run)] + [Row(CycleError)]);
    assert [Once(t.run)] + [] == [Once(t.run)];
  }

  lemma NextTick(g: RunConfig, log: seq<Write>, ticks: seq<Tick>, n: nat)
    requires g.cycle.Valid() && n < |ticks|
    ensures After(g, log, LoopSteps(g, log, ticks, n + 1))
         == TickLog(g, After(g, log, LoopSteps(g, log, ticks, n)), ticks[n])
  {
    AfterTick(g, log, LoopSteps(g, log, ticks, n), ticks[n]);
  }

  method RunTick(store: TradingStore, g: RunConfig, t: Tick) returns (escaped: bool)
    requires g.cycle.Valid()
    modifies store
    ensures store.log == TickLog(g, old(store.log), t)
    ensures escaped == TickEscapes(g, old(store.log), t)
  {
    var results := RunOnce(store, g, t.run);
    if results.Ok? { return false; }
    store.Weather(if t.handler == RowFails then 0 else 1);
    var recorded := store.Record(RunnerRow(CycleError));
    return recorded.Err? || t.handler == NotifierRaises;
  }

  /** Iteration n ends the loop, if it comes that far. */
  ghost predicate TickEscapesAt(g: RunConfig, log: seq<Write>, ticks: seq<Tick>, n: nat)
    requires g.cycle.Valid() && n < |ticks|
  {
    TickEscapes(g, After(g, log, LoopSteps(g, log, ticks, n)), ticks[n])
  }

  ghost predicate NoTickEscapes(g: RunConfig, log: seq<Write>, ticks: seq<Tick>, n: nat)
    requires g.cycle.Valid() && n <= |ticks|
  {
    forall m :: 0 <= m < n ==> !TickEscapesAt(g, log, ticks, m)
  }

  /** The log after n iterations, none of which ended the loop. */
  ghost predicate Ticked(g: RunConfig, log: seq<Write>, ticks: seq<Tick>, n: nat, now: seq<Write>)
    requires g.cycle.Valid() && n <= |ticks|
  {
    now == After(g, log, LoopSteps(g, log, ticks, n)) && NoTickEscapes(g, log, ticks, n)
  }

  ghost predicate TickedOut(g: RunConfig, log: seq<Write>, ticks: seq<Tick>, n: nat, now: seq<Write>)
    requires g.cycle.Valid() && n < |ticks|
  {
    && now == After(g, log, LoopSteps(g, log, ticks, n + 1))
    && NoTickEscapes(g, log, ticks, n) && TickEscapesAt(g, log, ticks, n)
  }

  lemma TickDone(g: RunConfig, log: seq<Write>, ticks: seq<Tick>, n: nat, before: seq<Write>)
    requires g.cycle.Valid() && n < |ticks| && Ticked(g, log, ticks, n, before)
    ensures var after := TickLog(g, before, ticks[n]);
            if TickEscapes(g, before, ticks[n]) then TickedOut(g, log, ticks, n, after)
            else Ticked(g, log, ticks, n + 1, after)
  {
    NextTick(g, log, ticks, n);
  }

  /** An iteration that does not end the loop takes one log to the next. */
  ghost predicate Follows(g: RunConfig, t: Tick, before: seq<Write>, after: seq<Write>) {
    g.cycle.Valid() && after == TickLog(g, before, t) && !TickEscapes(g, before, t)
  }

  ghost function Following(g: RunConfig): (Tick, seq<Write>, seq<Write>) -> bool {
    (t, before, after) => Follows(g, t, before, after)
  }

  /** Each element of xs leads from one element of ys to the next. */
  ghost predicate Chain<X(!new), Y(!new)>(xs: seq<X>, ys: seq<Y>, leads: (X, Y, Y) -> bool) {
    0 < |ys| <= |xs| + 1 && forall k :: 0 <= k < |ys| - 1 ==> leads(xs[k], ys[k], ys[k + 1])
  }

  lemma ChainNext<X(!new), Y(!new)>(xs: seq<X>, ys: seq<Y>, leads: (X, Y, Y) -> bool, y: Y)
    requires Chain(xs, ys, leads) && |ys| <= |xs| && leads(xs[|ys| - 1], ys[|ys| - 1], y)
    ensures Chain(xs, ys + [y], leads)
  {}

  lemma {:induction false} ChainTicked(g: RunConfig, log: seq<Write>, ticks: seq<Tick>, logs: seq<seq<Write>>, n: nat)
    requires g.cycle.Valid() && Chain(ticks, logs, Following(g)) && n < |logs| && Ticked(g, log, ticks, 0, logs[0])
    ensures Ticked(g, log, ticks, n, logs[n])
  {
    if n != 0 {
      var m := n - 1;
      ChainTicked(g, log, ticks, logs, m);
      assert Following(g)(ticks[m], logs[m], logs[m + 1]);
      TickFollows(g, log, ticks, m, logs[m], logs[n]);
    }
  }

  lemma TickFollows(g: RunConfig, log: seq<Write>, ticks: seq<Tick>, n: nat, before: seq<Write>, after: seq<Write>)
    requires g.cycle.Valid() && n < |ticks| && Ticked(g, log, ticks, n, before) && Follows(g, ticks[n], before, after)
    ensures Ticked(g, log, ticks, n + 1, after)
  {
    TickDone(g, log, ticks, n, before);
  }

  method RunTicks(store: TradingStore, g: RunConfig, maxCycles: Option<int>, ticks: seq<Tick>)
    returns (n: nat, escaped: bool, ghost logs: seq<seq<Write>>)
    requires g.cycle.Valid()
    modifies store
    ensures n <= TickLimit(ticks, maxCycles) && |logs| == n + 1 && logs[0] == old(store.log)
    ensures Chain(ticks, logs, Following(g))
    ensures !escaped ==> n == TickLimit(ticks, maxCycles) && store.log == logs[n]
    ensures escaped ==> n < TickLimit(ticks, maxCycles) && store.log == TickLog(g, logs[n], ticks[n])
                        && TickEscapes(g, logs[n], ticks[n])
  {
    n, escaped, logs := 0, false, [store.log];
    while n < |ticks|
      invariant n <= TickLimit(ticks, maxCycles) && |logs| == n + 1
      invariant logs[0] == old(store.log) && logs[n] == store.log
      invariant Chain(ticks, logs, Following(g))
    {
      if maxCycles != None && n >= maxCycles.value { return; }
      escaped := RunTick(store, g, ticks[n]);
      if escaped { return; }
      assert Following(g)(ticks[n], logs[n], store.log);
      ChainNext(ticks, logs, Following(g), store.log);
      n, logs := n + 1, logs + [store.log];
    }
  }

  /** Where the iterations leave the log, as steps from the log before the loop. */
  lemma TicksDone(g: RunConfig, log: seq<Write>, ticks: seq<Tick>, logs: seq<seq<Write>>, n: nat)
    requires g.cycle.Valid() && |logs| == n + 1 && Chain(ticks, logs, Following(g))
    requires logs[0] == After(g, log, [Row(RunnerStarted)])
    ensures Ticked(g, log, ticks, n, logs[n])
    ensures n < |ticks| && TickEscapes(g, logs[n], ticks[n])
            ==> TickedOut(g, log, ticks, n, TickLog(g, logs[n], ticks[n]))
  {
    assert Ticked(g, log, ticks, 0, logs[0]);
    ChainTicked(g, log, ticks, logs, n);
    if n < |ticks| { TickDone(g, log, ticks, n, logs[n]); }
  }

  /** The steps up to and including the first iteration that ends the loop. */
  ghost predicate EndedBy(g: RunConfig, log: seq<Write>, ticks: seq<Tick>, limit: nat, steps: seq<Step>)
    requires g.cycle.Valid() && limit <= |ticks|
  {
    exists n :: 0 <= n < limit && NoTickEscapes(g, log, ticks, n) && TickEscapesAt(g, log, ticks, n)
                && steps == LoopSteps(g, log, ticks, n + 1)
  }

  lemma FirstEscape(g: RunConfig, log: seq<Write>, ticks: seq<Tick>, n: nat, limit: nat)
    requires g.cycle.Valid() && n < limit <= |ticks|
    requires NoTickEscapes(g, log, ticks, n) && TickEscapesAt(g, log, ticks, n)
    ensures !NoTickEscapes(g, log, ticks, limit)
    ensures EndedBy(g, log, ticks, limit, LoopSteps(g, log, ticks, n + 1))
  {}

  /** The runner's loop: it returns the number of iterations, or raises where a handler or one of its own rows
      does. Whatever it does, the log moves by steps. */
  method RunLoop(store: TradingStore, g: RunConfig, interval: int, maxCycles: Option<int>, loop: Loop)
    returns (cyclesRun: Result<nat, LoopError>, ghost steps: seq<Step>)
    requires g.cycle.Valid()
    modifies store
    ensures store.log == After(g, old(store.log), steps)
    ensures interval < 1 ==> cyclesRun == Err(BadInterval) && steps == []
    ensures interval >= 1 && !loop.starts ==> cyclesRun == Err(LoopUnwritten) && steps == []
    ensures var limit := TickLimit(loop.ticks, maxCycles);
            interval >= 1 && loop.starts && NoTickEscapes(g, old(store.log), loop.ticks, limit)
            ==> cyclesRun == (if loop.stops then Ok(limit) else Err(LoopUnwritten))
                && steps == LoopSteps(g, old(store.log), loop.ticks, limit)
                            + (if loop.stops then [Row(RunnerStopped)] else [])
    ensures var limit := TickLimit(loop.ticks, maxCycles);
            interval >= 1 && loop.starts && !NoTickEscapes(g, old(store.log), loop.ticks, limit)
            ==> cyclesRun == Err(TickEscaped) && EndedBy(g, old(store.log), loop.ticks, limit, steps)
  {
    ghost var log := store.log;
    if interval < 1 { return Err(BadInterval), []; }
    store.Weather(if loop.starts then 1 else 0);
    var started := store.Record(RunnerRow(RunnerStarted));
    if started.Err? { return Err(LoopUnwritten), []; }
    AfterSnoc(g, log, [], Row(RunnerStarted));
    assert [] + [Row(RunnerStarted)] == [Row(RunnerStarted)];
    var n, escaped, logs := RunTicks(store, g, maxCycles, loop.ticks);
    TicksDone(g, log, loop.ticks, logs, n);
    steps := LoopSteps(g, log, loop.ticks, n);
    if escaped {
      FirstEscape(g, log, loop.ticks, n, TickLimit(loop.ticks, maxCycles));
      return Err(TickEscaped), LoopSteps(g, log, loop.ticks, n + 1);
    }
    store.Weather(if loop.stops then 1 else 0);
    var stopped := store.Record(RunnerRow(RunnerStopped));
    assert steps + [] == steps;
    if stopped.Err? { return Err(LoopUnwritten), steps; }
    AfterSnoc(g, log, steps, Row(RunnerStopped));
    return Ok(n), steps + [Row(RunnerStopped)];
  }
}
