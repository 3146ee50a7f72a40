/** One symbol listed twice: a concrete run that sells a position twice, and what follows from it. */
module DoubleSales {
  import opened Prelude
  import opened StableSort
  import opened Ledger
  import opened PaperExecution
  import opened Exits
  import opened Gate
  import opened TradingLog
  import opened PaperCycle
  import opened CycleTrace
  import opened Runner
  import opened ClosedLoop

  /** From a run that sells one position twice on, no run trades again and every replay raises. */
  lemma DoubleSaleJams(g: RunConfig, log: seq<Write>, r: Run, clock: int, steps: seq<Step>)
    requires g.cycle.Valid() && Healthy(g.initialCash, FillsOf(log), clock) && clock <= r.now && DoubleSale(g, log, r)
    ensures Rebuilt(g, After(g, RunLog(g, log, r), steps)) == Err(NoPosition)
    ensures FillsOf(After(g, RunLog(g, log, r), steps)) == FillsOf(RunLog(g, log, r))
  {
    RunSafeIff(g, log, r, clock);
    JammedForever(g, RunLog(g, log, r), steps);
  }

  // ----- one such run -----

  const ENGINE := ExitEngine(None, 5.0, 0)
  const CONFIG := RunConfig(CycleConfig(PaperExecutor(0.0, 0.0), 10.0, Some(ENGINE)), 500.0)
  const BOUGHT := Fill("A", BUY, 100.0, 1.0, 0.0, 0.0, 0)
  const HELD := Position(1.0, 100.0, 0.0, Some(0), None)
  const EARLIER := [ExecutionRow(Order("A", BUY, 100.0, 0), BOUGHT)]
  const VIEW := View(PaperAuto, Lock(false, None), None, Allow, 0, [])
  const TURN := SymbolRun("A", Some(Candle(200.0, 0)), VIEW, 5, Completes)
  const TWICE := Run(1, NothingFails, [TURN, TURN], true)

  /** The log holds one unit of A bought at 100. */
  lemma EarlierHealthy()
    ensures Healthy(500.0, FillsOf(EARLIER), 0)
    ensures Replay(500.0, FillsOf(EARLIER)) == Ok(Book(400.0, map["A" := HELD], 0.0))
  {
    assert EARLIER[..0] == [];
    assert FillsOf(EARLIER) == [] + [BOUGHT];
    HealthyAppend(500.0, [], 0, BOUGHT);
    assert Opened(BOUGHT) == HELD;
    assert map[]["A" := HELD] == map["A" := HELD];
  }

  lemma PriceOfA()
    ensures PricesOf(TWICE) == map["A" := 200.0]
  {
    var turns := TWICE.symbols;
    assert turns[..1] == [TURN] && [TURN][..0] == [];
    assert Latest([TURN]) == map["A" := Candle(200.0, 0)];
    assert turns[..|turns| - 1] == [TURN];
    assert Latest(turns) == map["A" := Candle(200.0, 0)];
  }

  /** A position at 100 with a 5% target, at a market price of 200: the exit is due and sells it. */
  lemma ExitDue(i: CycleInput)
    requires i.symbol == "A" && i.prices == map["A" := 200.0] && i.position == Some(HELD)
    ensures ExitSell(CONFIG.cycle, i) != None
  {
    var h := Holding("A", 1.0, 100.0, 0);
    Priority(ENGINE, None, h, 200.0, i.now);
    FullExit(ENGINE.Rules(None, 100.0), h, 200.0, i.now);
  }

  lemma {:induction false} AllReached(c: CycleConfig, jobs: seq<Job>, n: nat)
    requires c.Valid() && n <= |jobs| && forall k :: 0 <= k < |jobs| ==> jobs[k].turn.handler == Completes
    ensures Reached(c, jobs, n) == |jobs|
    decreases |jobs| - n
  {
    if n < |jobs| { AllReached(c, jobs, n + 1); }
  }

  lemma InputOfA(log: seq<Write>, b: Book)
    requires b.positions == map["A" := HELD]
    ensures var jobs := JobsOf(CONFIG, log, b, TWICE);
            |jobs| == 2 && SameSale(CONFIG.cycle, jobs, 0, 1) && Reached(CONFIG.cycle, jobs, 0) == 2
  {
    var jobs := JobsOf(CONFIG, log, b, TWICE);
    PriceOfA();
    ExitDue(jobs[0].input);
    AllReached(CONFIG.cycle, jobs, 0);
  }

  /** With take-profit at 5%, one unit of A bought at 100 and A at 200, a run over ["A", "A"] in which nothing
      raises sells the unit twice: whatever follows, every replay raises and nothing is traded again. */
  lemma ListedTwice(steps: seq<Step>)
    ensures DoubleSale(CONFIG, EARLIER, TWICE)
    ensures Rebuilt(CONFIG, After(CONFIG, RunLog(CONFIG, EARLIER, TWICE), steps)) == Err(NoPosition)
    ensures FillsOf(After(CONFIG, RunLog(CONFIG, EARLIER, TWICE), steps)) == FillsOf(RunLog(CONFIG, EARLIER, TWICE))
  {
    EarlierHealthy();
    RunFills(CONFIG, EARLIER, TWICE);
    StartHealthy(CONFIG, EARLIER, TWICE, 0);
    InputOfA(Started(EARLIER), Rebuilt(CONFIG, Started(EARLIER)).value);
    DoubleSaleJams(CONFIG, EARLIER, TWICE, 0, steps);
  }
}
