/** The daily-loss stop over whole days: one baseline per day, whatever raises in between. */
module DailyBaseline {
  import opened Prelude
  import opened Ledger
  import opened Risk
  import opened TradingLog
  import opened PaperCycle
  import opened CycleTrace
  import opened Runner
  import opened ClosedLoop
  import opened LoopBounds

  ghost predicate NoBaseline(ws: seq<Write>) { forall j :: 0 <= j < |ws| ==> !ws[j].BaselineRow? }

  lemma {:induction false} BaselineKept(log: seq<Write>, more: seq<Write>)
    requires NoBaseline(more)
    ensures LatestBaseline(log + more) == LatestBaseline(log)
  {
    if |more| == 0 {
      assert log + more == log;
    } else {
      var front := more[..|more| - 1];
      assert (log + more)[..|log + more| - 1] == log + front;
      BaselineKept(log, front);
    }
  }

  lemma RowsNoBaseline(c: CycleConfig, j: Job)
    requires c.Valid()
    ensures NoBaseline(CycleRows(c, j))
  {
    CycleTrail(c, j.input, j.turn.view);
    PlanNoBaseline(PlanOf(c, j), j.turn.budget);
  }

  lemma PlanNoBaseline(p: Plan, budget: nat)
    requires Trail(p)
    ensures NoBaseline(Upto(p.writes, budget) + [RunnerRow(CycleError)]) && NoBaseline(Upto(p.writes, budget) + [])
  {}

  lemma {:induction false} CyclesKeepBaseline(c: CycleConfig, log: seq<Write>, jobs: seq<Job>, n: nat)
    requires c.Valid() && n <= |jobs|
    ensures LatestBaseline(CyclesLog(c, log, jobs, n)) == LatestBaseline(log)
  {
    if n != 0 {
      var m := n - 1;
      CyclesKeepBaseline(c, log, jobs, m);
      CyclesStep(c, log, jobs, m);
      RowsNoBaseline(c, jobs[m]);
      BaselineKept(CyclesLog(c, log, jobs, m), CycleRows(c, jobs[m]));
    }
  }

  lemma PreparedBaseline(g: RunConfig, log: seq<Write>, b: Book, r: Run)
    ensures LatestBaseline(Prepared(g, log, b, r)) == Some(BaselineRow(DayOf(r.now), RunDayStart(g, log, b, r)))
  {
    BaselineIsRow(log);
    var rows := BaselineRows(log, r.now, AccountEquity(g, b, r));
    if rows == [] {
      assert log + rows == log;
    } else {
      assert (log + rows)[|log|] == rows[0];
    }
  }

  lemma {:induction false} BaselineIsRow(log: seq<Write>)
    ensures LatestBaseline(log) != None ==> LatestBaseline(log).value.BaselineRow?
  {
    if |log| != 0 { BaselineIsRow(log[..|log| - 1]); }
  }

  /** The baseline that a run works with, if it gets as far as its cycles. */
  ghost function BaselineOf(g: RunConfig, log: seq<Write>, r: Run): real
    requires Rebuilt(g, Started(log)).Ok?
  {
    RunDayStart(g, Started(log), Rebuilt(g, Started(log)).value, r)
  }

  /** After a run that starts its cycles the newest baseline is the one it used, dated with its day; any
      other run leaves the baselines alone. */
  lemma RunBaseline(g: RunConfig, log: seq<Write>, r: Run)
    requires g.cycle.Valid()
    ensures LatestBaseline(Started(log)) == LatestBaseline(log)
    ensures LatestBaseline(RunLog(g, log, r))
         == if Starts(g, Started(log), r) then Some(BaselineRow(DayOf(r.now), BaselineOf(g, log, r)))
            else LatestBaseline(log)
  {
    var started := Started(log);
    BaselineKept(log, [RunnerRow(LoopStarted)]);
    if Starts(g, started, r) {
      var b := Rebuilt(g, started).value;
      var jobs := JobsOf(g, started, b, r);
      PreparedBaseline(g, started, b, r);
      CyclesKeepBaseline(g.cycle, Prepared(g, started, b, r), jobs, Reached(g.cycle, jobs, 0));
      BaselineKept(CycledLog(g, started, b, r), [RunnerRow(LoopFinished)]);
      BaselineKept(CycledLog(g, started, b, r), []);
    }
  }

  // ----- over many steps -----

  /** Step n is a run that gets as far as its cycles. */
  ghost predicate Trades(g: RunConfig, steps: seq<Step>, n: nat)
    requires g.cycle.Valid() && n < |steps|
  {
    steps[n].Once? && Starts(g, Started(After(g, [], steps[..n])), steps[n].run)
  }

  /** The day-start equity that run n works with. */
  ghost function BaselineAt(g: RunConfig, steps: seq<Step>, n: nat): real
    requires g.cycle.Valid() && n < |steps| && Trades(g, steps, n)
  {
    BaselineOf(g, After(g, [], steps[..n]), steps[n].run)
  }

  ghost predicate BaselineIs(g: RunConfig, steps: seq<Step>, n: nat, day: int, amount: real)
    requires g.cycle.Valid() && n <= |steps|
  {
    LatestBaseline(After(g, [], steps[..n])) == Some(BaselineRow(day, amount))
  }

  lemma FirstSets(g: RunConfig, steps: seq<Step>, n: nat)
    requires g.cycle.Valid() && n < |steps| && Trades(g, steps, n)
    ensures BaselineIs(g, steps, n + 1, DayOf(steps[n].run.now), BaselineAt(g, steps, n))
  {
    AfterNext(g, [], steps, n);
    RunBaseline(g, After(g, [], steps[..n]), steps[n].run);
  }

  /** A run of the same day uses the baseline it finds. */
  lemma LaterUses(g: RunConfig, steps: seq<Step>, n: nat, day: int, amount: real)
    requires g.cycle.Valid() && n < |steps| && BaselineIs(g, steps, n, day, amount)
    requires Trades(g, steps, n) && DayOf(steps[n].run.now) == day
    ensures BaselineAt(g, steps, n) == amount
  {
    RunBaseline(g, After(g, [], steps[..n]), steps[n].run);
  }

  lemma NextKeeps(g: RunConfig, steps: seq<Step>, n: nat, day: int, amount: real)
    requires g.cycle.Valid() && n < |steps| && BaselineIs(g, steps, n, day, amount)
    requires steps[n].Once? ==> DayOf(steps[n].run.now) == day
    ensures BaselineIs(g, steps, n + 1, day, amount)
  {
    AfterNext(g, [], steps, n);
    match steps[n]
    case Row(kind) => BaselineKept(After(g, [], steps[..n]), [RunnerRow(kind)]);
    case Once(r) =>
      if Trades(g, steps, n) {
        LaterUses(g, steps, n, day, amount);
        FirstSets(g, steps, n);
      } else {
        RunBaseline(g, After(g, [], steps[..n]), r);
      }
  }

  lemma {:induction false} DayKeeps(g: RunConfig, steps: seq<Step>, first: nat, n: nat, day: int, amount: real)
    requires g.cycle.Valid() && first <= n <= |steps| && BaselineIs(g, steps, first, day, amount)
    requires forall m :: first <= m < n && steps[m].Once? ==> DayOf(steps[m].run.now) == day
    ensures BaselineIs(g, steps, n, day, amount)
  {
    if n != first {
      var m := n - 1;
      DayKeeps(g, steps, first, m, day, amount);
      NextKeeps(g, steps, m, day, amount);
    }
  }

  lemma DaysBetween(a: int, b: int, c: int)
    requires a <= b <= c && DayOf(a) == DayOf(c)
    ensures DayOf(b) == DayOf(a)
  {}

  lemma SameDayMiddle(steps: seq<Step>, first: nat, m: nat, n: nat)
    requires ValidSteps(steps) && first <= m <= n < |steps|
    requires steps[first].Once? && steps[m].Once? && steps[n].Once?
    requires DayOf(steps[first].run.now) == DayOf(steps[n].run.now)
    ensures DayOf(steps[m].run.now) == DayOf(steps[first].run.now)
  {
    if first < m { assert steps[first].run.now <= steps[m].run.now; }
    if m < n { assert steps[m].run.now <= steps[n].run.now; }
    DaysBetween(steps[first].run.now, steps[m].run.now, steps[n].run.now);
  }

  /** All runs of one day that reach their cycles share one baseline, however the account moves and whatever
      raises in between. */
  lemma SameDayBaseline(g: RunConfig, steps: seq<Step>, first: nat, n: nat)
    requires g.cycle.Valid() && ValidSteps(steps) && first <= n < |steps|
    requires Trades(g, steps, first) && Trades(g, steps, n)
    requires DayOf(steps[first].run.now) == DayOf(steps[n].run.now)
    ensures BaselineAt(g, steps, n) == BaselineAt(g, steps, first)
  {
    if first < n {
      var day, amount := DayOf(steps[first].run.now), BaselineAt(g, steps, first);
      FirstSets(g, steps, first);
      forall m | first + 1 <= m < n && steps[m].Once? ensures DayOf(steps[m].run.now) == day {
        SameDayMiddle(steps, first, m, n);
      }
      DayKeeps(g, steps, first + 1, n, day, amount);
      LaterUses(g, steps, n, day, amount);
    }
  }

  /** The equity has not lost the no-new-positions percentage of the day's opening equity. */
  ghost predicate AboveStop(e: real, day: real) {
    && SelectRiskProfile(e, DEFAULT_PROFILES).Ok? && day > 0.0
    && 100.0 * (day - e) < SelectRiskProfile(e, DEFAULT_PROFILES).value.noNewPositionsPct * day
  }

  lemma BuyAboveStop(c: CycleConfig, i: CycleInput, v: View)
    requires c.Valid() && EntryBuy(c, i, v) != None
    ensures AboveStop(i.risk.equity, i.risk.dayStart)
  {
    EntryBuyFacts(c, i, v);
    ProfileRates(i.risk.equity);
    ApprovedIff(i.risk, SelectRiskProfile(i.risk.equity, DEFAULT_PROFILES).value);
  }

  lemma RunBuyAboveStop(g: RunConfig, log: seq<Write>, r: Run, clock: int, j: nat)
    requires g.cycle.Valid() && Healthy(g.initialCash, FillsOf(log), clock) && clock <= r.now && Distinct(r)
    requires |FillsOf(log)| <= j < |FillsOf(RunLog(g, log, r))| && FillsOf(RunLog(g, log, r))[j].side == BUY
    ensures Starts(g, Started(log), r) && Rebuilt(g, log).Ok? && Rebuilt(g, Started(log)) == Rebuilt(g, log)
    ensures AboveStop(AccountEquity(g, Rebuilt(g, log).value, r), BaselineOf(g, log, r))
  {
    var m := RunFillsPlanned(g, log, r, clock, j);
    RunReady(g, log, r, clock);
    PlannedBuy(g, log, r, j, m);
    var b, x := Rebuilt(g, log).value, r.symbols[m];
    InputFields(g, Started(log), b, r, x.symbol);
    BuyAboveStop(g.cycle, InputFor(g, Started(log), b, r, x.symbol), x.view);
  }

  /** Step n of a run adds fill j, and that is a BUY. */
  ghost predicate BuysAt(g: RunConfig, steps: seq<Step>, n: nat, j: nat)
    requires g.cycle.Valid() && n < |steps|
  {
    && steps[n].Once? && |FillsOf(After(g, [], steps[..n]))| <= j < |FillsOf(After(g, [], steps[..n + 1]))|
    && FillsOf(After(g, [], steps[..n + 1]))[j].side == BUY
  }

  /** Daily-loss stop: a BUY in any run of a day means the equity it was sized on had not fallen by the
      no-new-positions percentage of that day's first baseline. */
  lemma DailyLossStop(g: RunConfig, steps: seq<Step>, first: nat, n: nat, j: nat)
    requires g.cycle.Valid() && ValidSteps(steps) && first <= n < |steps| && Trades(g, steps, first)
    requires BuysAt(g, steps, n, j) && DayOf(steps[first].run.now) == DayOf(steps[n].run.now)
    ensures Rebuilt(g, After(g, [], steps[..n])).Ok?
    ensures AboveStop(AccountEquity(g, Rebuilt(g, After(g, [], steps[..n])).value, steps[n].run),
                      BaselineAt(g, steps, first))
  {
    var clock := HealthyBefore(g, steps, n);
    RunBuyAboveStop(g, After(g, [], steps[..n]), steps[n].run, clock, j);
    SameDayBaseline(g, steps, first, n);
  }
}
