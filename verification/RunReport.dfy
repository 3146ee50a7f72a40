/** What a run reports of what it persisted, and what the runner's loop runs. */
module RunReport {
  import opened Prelude
  import opened Ledger
  import opened Risk
  import opened PaperExecution
  import opened Exits
  import opened Gate
  import opened TradingLog
  import opened PaperCycle
  import opened CycleTrace
  import opened Runner

  // ----- where the fill is in a cycle -----

  /** The fills of all but the last k rows. */
  function FillsBut(ws: seq<Write>, k: nat): seq<Fill>
    requires k <= |ws|
  {
    FillsOf(ws[..|ws| - k])
  }

  /** The only fill, if any, is in the row before the last two. */
  ghost predicate FillThird(ws: seq<Write>, fill: Option<Fill>) {
    && FillsBut(ws, 0) == ToSeq(fill)
    && (fill != None ==> |ws| >= 3 && FillsBut(ws, 3) == [] && FillsBut(ws, 2) == [fill.value])
  }

  lemma FillsButBefore(e: seq<Write>, ws: seq<Write>, k: nat)
    requires FillsOf(e) == [] && k <= |ws|
    ensures FillsBut(e + ws, k) == FillsBut(ws, k)
  {
    var front := ws[..|ws| - k];
    assert (e + ws)[..|e + ws| - k] == e + front;
    FillsAppend(e, front);
    assert [] + FillsOf(front) == FillsOf(front);
  }

  lemma FillThirdBefore(e: seq<Write>, ws: seq<Write>, fill: Option<Fill>)
    requires FillThird(ws, fill) && FillsOf(e) == []
    ensures FillThird(e + ws, fill)
  {
    FillsButBefore(e, ws, 0);
    if fill != None {
      FillsButBefore(e, ws, 3);
      FillsButBefore(e, ws, 2);
    }
  }

  lemma FillThirdCons(e: Write, p: Plan, fill: Option<Fill>)
    requires FillThird(p.writes, fill) && !e.ExecutionRow?
    ensures FillThird(Before([e], p).writes, fill)
  {
    NoFills([e]);
    FillThirdBefore([e], p.writes, fill);
  }

  lemma ThreeRows(w: Write, a: Write, b: Write)
    requires w.ExecutionRow? && !a.ExecutionRow? && !b.ExecutionRow?
    ensures FillThird([w, a, b], Some(w.fill))
  {
    assert [w, a, b][..3] == [w] + [a, b];
    OneFill(w, [a, b]);
    assert [w, a, b][..1] == [w] + [];
    OneFill(w, []);
  }

  lemma NoThird(ws: seq<Write>)
    requires FillsOf(ws) == []
    ensures FillThird(ws, None)
  {
    assert ws[..|ws|] == ws;
  }

  lemma BuyThird(c: CycleConfig, i: CycleInput, v: View, x: Option<ExitSignal>, st: RiskState, z: Size)
    requires c.Valid() && i.symbol in i.prices
    requires c.executor.ExecuteMarketBuy(i.symbol, z, i.prices[i.symbol], i.now).Filled?
    ensures FillThird(BuyPlan(c, i, v, x, st, z).writes,
                      Some(c.executor.ExecuteMarketBuy(i.symbol, z, i.prices[i.symbol], i.now).fill))
  {
    var ws := BuyPlan(c, i, v, x, st, z).writes;
    ThreeRows(ws[0], ws[1], ws[2]);
    assert ws == [ws[0], ws[1], ws[2]];
  }

  lemma EntryThird(c: CycleConfig, i: CycleInput, v: View, x: Option<ExitSignal>)
    requires c.Valid()
    ensures FillThird(EntryPlan(c, i, v, x).writes, EntryBuy(c, i, v))
  {
    EntryPersists(c, i, v, x);
    if EntryBuy(c, i, v) == None {
      NoThird(EntryPlan(c, i, v, x).writes);
    } else {
      var k, z := v.candidate.value, Approvals(c, i, v).value;
      var p := SelectRiskProfile(i.risk.equity, DEFAULT_PROFILES).value;
      var d := PreTrade(i.risk, p).value;
      var fill := EntryBuy(c, i, v);
      GateRoutes(v.mode, v.lock, true, i.risk.killSwitch);
      BuyThird(c, i, v, x, d.state, z);
      FillThirdCons(Ev(i, v, ExecutionAttempted, AttemptStage, Some(BUY), None), BuyPlan(c, i, v, x, d.state, z), fill);
      FillThirdCons(Ev(i, v, PositionSized, SizeStage, Some(BUY), None), GatePlan(c, i, v, x, d.state, z), fill);
      FillThirdCons(Ev(i, v, RiskChecked, RiskStage, Some(BUY), Some("ai_approved")), RiskPlan(c, i, v, x, k), fill);
      FillThirdCons(Ev(i, v, SignalGenerated, SignalStage, Some(BUY), None), AiPlan(c, i, v, x, k), fill);
    }
  }

  lemma CycleThird(c: CycleConfig, i: CycleInput, v: View)
    requires c.Valid()
    ensures FillThird(CyclePlan(c, i, v).writes, CycleFill(c, i, v))
  {
    var s, rest, all := ScanExit(c, i, v), AfterScan(c, i, v), CyclePlan(c, i, v).writes;
    var started := Ev(i, v, CycleStarted, StartedStage, None, None);
    if s.executed {
      var w := s.writes + rest.writes;
      assert w == [w[0]] + [w[1], w[2], w[3]];
      ThreeRows(w[1], w[2], w[3]);
      NoFills([w[0]]);
      FillThirdBefore([w[0]], [w[1], w[2], w[3]], ExitSell(c, i));
    } else {
      NoFills(s.writes);
      EntryThird(c, i, v, s.signal);
      FillThirdBefore(s.writes, rest.writes, EntryBuy(c, i, v));
    }
    FillThirdCons(started, Before(s.writes, rest), CycleFill(c, i, v));
  }

  // ----- what is persisted and what is reported -----

  lemma {:induction false} FillsPrefix(ws: seq<Write>, n: nat, m: nat)
    requires n <= m <= |ws|
    ensures FillsOf(ws[..n]) <= FillsOf(ws[..m])
  {
    assert ws[..m] == ws[..n] + ws[n..m];
    FillsAppend(ws[..n], ws[n..m]);
  }

  /** Once the third row from the end is written, and not before, the fill is there. */
  lemma FillUpto(ws: seq<Write>, fill: Fill, budget: nat)
    requires FillThird(ws, Some(fill))
    ensures FillsOf(Upto(ws, budget)) == if budget + 2 >= |ws| then [fill] else []
  {
    var k := |ws|;
    assert ws[..k] == ws;
    if budget + 2 < k {
      FillsPrefix(ws, budget, k - 3);
    } else if budget < k {
      FillsPrefix(ws, k - 2, budget);
      FillsPrefix(ws, budget, k);
    }
  }

  lemma FillsOfRows(c: CycleConfig, j: Job)
    requires c.Valid()
    ensures FillsOf(CycleRows(c, j)) == FillsOf(Upto(PlanOf(c, j).writes, j.turn.budget))
  {
    var ws := Upto(PlanOf(c, j).writes, j.turn.budget);
    var e := if Raises(c, j) && j.turn.handler != RowFails then [RunnerRow(CycleError)] else [];
    NoFills(e);
    FillsAppend(ws, e);
  }

  /** What a cycle persists: its fill exactly if all but its last two rows got through. */
  lemma FillPersisted(c: CycleConfig, j: Job)
    requires c.Valid()
    ensures var fill := CycleFill(c, j.input, j.turn.view);
            FillsOf(CycleRows(c, j))
            == if fill != None && j.turn.budget + 2 >= |PlanOf(c, j).writes| then [fill.value] else []
  {
    var ws, fill := PlanOf(c, j).writes, CycleFill(c, j.input, j.turn.view);
    FillsOfRows(c, j);
    CycleThird(c, j.input, j.turn.view);
    if fill != None {
      FillUpto(ws, fill.value, j.turn.budget);
    } else {
      FillsPrefix(ws, if j.turn.budget < |ws| then j.turn.budget else |ws|, |ws|);
      assert ws[..|ws|] == ws;
    }
  }

  predicate IsError(x: CycleResult, symbol: string) {
    && x.symbol == symbol && x.status == StatusError && x.rejectReasons == ["cycle_error"] && x.eventIds == []
    && !x.orderExecuted && !x.exitExecuted && !x.candidatePresent && x.riskState == None && x.exitSignal == None
  }

  /** A persisted fill is reported exactly if both rows after it got through as well. With one of them lost the trade
      is in the log, and the run reports an error without an order or an exit. */
  lemma UnreportedIff(c: CycleConfig, log: seq<Write>, j: Job)
    requires c.Valid() && FillsOf(CycleRows(c, j)) != []
    ensures var x, n := ResultOf(c, log, j), |PlanOf(c, j).writes|;
            && n <= j.turn.budget + 2
            && (j.turn.budget >= n <==> x.orderExecuted || x.exitExecuted)
            && (j.turn.budget < n <==> IsError(x, j.input.symbol))
  {
    FillPersisted(c, j);
    CycleFills(c, j.input, j.turn.view);
  }

  /** A reported order or exit is persisted. */
  lemma ReportedIsPersisted(c: CycleConfig, log: seq<Write>, j: Job)
    requires c.Valid()
    ensures var x := ResultOf(c, log, j);
            x.orderExecuted || x.exitExecuted
            ==> CycleFill(c, j.input, j.turn.view) != None
                && FillsOf(CycleRows(c, j)) == [CycleFill(c, j.input, j.turn.view).value]
  {
    FillPersisted(c, j);
    CycleFills(c, j.input, j.turn.view);
  }

  // ----- the loop -----

  function RunsOf(steps: seq<Step>): seq<Run> {
    if |steps| == 0 then []
    else RunsOf(steps[..|steps| - 1]) + (if steps[|steps| - 1].Once? then [steps[|steps| - 1].run] else [])
  }

  lemma RunsSnoc(steps: seq<Step>, s: Step)
    ensures RunsOf(steps + [s]) == RunsOf(steps) + if s.Once? then [s.run] else []
  {
    assert (steps + [s])[..|steps|] == steps;
  }

  function RunsIn(ticks: seq<Tick>): seq<Run> { seq(|ticks|, n requires 0 <= n < |ticks| => ticks[n].run) }

  lemma TickRuns(g: RunConfig, log: seq<Write>, steps: seq<Step>, t: Tick)
    requires g.cycle.Valid()
    ensures RunsOf(steps + TickSteps(g, log, t)) == RunsOf(steps) + [t.run]
  {
    RunsSnoc(steps, Once(t.run));
    RunsSnoc(steps + [Once(t.run)], Row(CycleError));
    assert steps + [Once(t.run)] + [Row(CycleError)] == steps + ([Once(t.run)] + [Row(CycleError)]);
    assert [Once(t.run)] + [] == [Once(t.run)];
  }

  lemma RunsInNext(ticks: seq<Tick>, n: nat)
    requires n < |ticks|
    ensures RunsIn(ticks[..n + 1]) == RunsIn(ticks[..n]) + [ticks[n].run]
  {}

  lemma NextRuns(g: RunConfig, log: seq<Write>, ticks: seq<Tick>, n: nat)
    requires g.cycle.Valid() && n < |ticks|
    ensures RunsOf(LoopSteps(g, log, ticks, n + 1)) == RunsOf(LoopSteps(g, log, ticks, n)) + [ticks[n].run]
  {
    var steps := LoopSteps(g, log, ticks, n);
    TickRuns(g, After(g, log, steps), steps, ticks[n]);
  }

  lemma FirstRuns(g: RunConfig, log: seq<Write>, ticks: seq<Tick>)
    requires g.cycle.Valid()
    ensures RunsOf(LoopSteps(g, log, ticks, 0)) == []
  {
    RunsSnoc([], Row(RunnerStarted));
    assert [] + [Row(RunnerStarted)] == [Row(RunnerStarted)];
  }

  /** The loop runs the runs of its iterations, each once and in order. */
  lemma {:induction false} LoopRuns(g: RunConfig, log: seq<Write>, ticks: seq<Tick>, n: nat)
    requires g.cycle.Valid() && n <= |ticks|
    ensures RunsOf(LoopSteps(g, log, ticks, n)) == RunsIn(ticks[..n])
  {
    if n == 0 {
      FirstRuns(g, log, ticks);
    } else {
      var m := n - 1;
      LoopRuns(g, log, ticks, m);
      NextRuns(g, log, ticks, m);
      RunsInNext(ticks, m);
    }
  }

  /** A run comes to its cycles unless its first row, a query, the replay or a new baseline fails. */
  lemma StartsIff(g: RunConfig, started: seq<Write>, r: Run)
    ensures Starts(g, started, r)
       <==> && !r.setup.StartFails? && !r.setup.QueryFails? && Rebuilt(g, started).Ok?
            && (r.setup.BaselineFails? ==> BaselineRows(started, r.now, 0.0) == [])
  {}

  /** It raises unless it comes to them, none escapes, and its last row is written. */
  lemma RunRaisesIff(g: RunConfig, log: seq<Write>, r: Run)
    requires g.cycle.Valid()
    ensures var started := log + [RunnerRow(LoopStarted)];
            !RunRaises(g, log, r) <==>
            Starts(g, started, r) && r.finishes && !Escaped(g.cycle, JobsOf(g, started, Rebuilt(g, started).value, r))
  {}

  /** What a run that raises lets out, by how far it came. */
  lemma FaultTells(g: RunConfig, log: seq<Write>, r: Run)
    requires g.cycle.Valid() && RunRaises(g, log, r)
    ensures var started, fault := log + [RunnerRow(LoopStarted)], FaultOf(g, log, r);
            && (fault == QueryFailed <==> r.setup.QueryFails?)
            && (fault.ReplayFailed? <==> !r.setup.StartFails? && !r.setup.QueryFails? && Rebuilt(g, started).Err?)
            && (fault.ReplayFailed? ==> Rebuilt(g, started) == Err(fault.error))
            && (fault == CycleEscaped
                <==> Starts(g, started, r) && Escaped(g.cycle, JobsOf(g, started, Rebuilt(g, started).value, r)))
  {}

  /** A cycle that raises escapes unless its error row is written and its notifier returns; the row is then the last
      one of the cycle. */
  lemma CycleErrorTells(c: CycleConfig, j: Job)
    requires c.Valid()
    ensures !Raises(c, j) ==> CycleRows(c, j) == PlanOf(c, j).writes && !Escapes(c, j)
    ensures Raises(c, j) && !Escapes(c, j)
            ==> CycleRows(c, j) != [] && CycleRows(c, j)[|CycleRows(c, j)| - 1] == RunnerRow(CycleError)
    ensures Raises(c, j) <==> RiskRaised(c, j) || j.turn.budget < |PlanOf(c, j).writes|
    ensures Escapes(c, j) <==> Raises(c, j) && (j.turn.handler.RowFails? || j.turn.handler.NotifierRaises?)
  {}

  ghost predicate RiskRaised(c: CycleConfig, j: Job)
    requires c.Valid()
  {
    CyclePlan(c, j.input, j.turn.view).end.Err?
  }

  /** An iteration ends the loop only if its run raises and then its error row or its notifier does too; after any
      other the last row tells whether the run raised. */
  lemma LastRowTells(g: RunConfig, log: seq<Write>, t: Tick)
    requires g.cycle.Valid()
    ensures TickEscapes(g, log, t)
       <==> RunRaises(g, log, t.run) && (t.handler.RowFails? || t.handler.NotifierRaises?)
    ensures var after := TickLog(g, log, t);
            !TickEscapes(g, log, t)
            ==> after != []
                && after[|after| - 1] == RunnerRow(if RunRaises(g, log, t.run) then CycleError else LoopFinished)
  {}

  /** The iterations of a loop: all there are, unless a limit comes first. */
  lemma TickLimitIs(ticks: seq<Tick>, maxCycles: Option<int>, n: nat)
    ensures n < TickLimit(ticks, maxCycles) <==> n < |ticks| && (maxCycles.Some? ==> n < maxCycles.value)
  {}
}
