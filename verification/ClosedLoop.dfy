/** The closed loop: runs feed the log that later runs replay. Exactly when every later replay is safe, with
    exceptions anywhere. */
module ClosedLoop {
  import opened Prelude
  import opened Sums
  import opened StableSort
  import opened Ledger
  import Accounting
  import opened Risk
  import opened Gate
  import opened TradingLog
  import opened PaperCycle
  import opened CycleTrace
  import opened Runner

  // ----- health of a fill log -----

  ghost predicate GoodFill(f: Fill) { f.qty > 0.0 && f.price > 0.0 && f.fee >= 0.0 }

  /** The n-th fill sells exactly the quantity held just before it. */
  ghost predicate ClosesAt(cash: real, fills: seq<Fill>, n: nat)
    requires n < |fills|
  {
    var b := Replay(cash, fills[..n]);
    b.Ok? && fills[n].symbol in b.value.positions && fills[n].qty == b.value.positions[fills[n].symbol].qty
  }

  ghost predicate ClosesExactly(cash: real, fills: seq<Fill>) {
    forall n :: 0 <= n < |fills| && fills[n].side == SELL ==> ClosesAt(cash, fills, n)
  }

  /** Replays without raising, in the order it is stored; every fill is well formed and no later than
      the clock; every SELL closes its position. */
  ghost predicate Healthy(cash: real, fills: seq<Fill>, clock: int) {
    && Replay(cash, fills).Ok?
    && Ordered(fills, FilledAt)
    && (forall n :: 0 <= n < |fills| ==> GoodFill(fills[n]) && fills[n].filledAt <= clock)
    && ClosesExactly(cash, fills)
  }

  lemma HealthyBook(cash: real, fills: seq<Fill>, clock: int)
    requires Healthy(cash, fills, clock)
    ensures QtyPositive(Replay(cash, fills).value) && FeesNonneg(Replay(cash, fills).value)
    ensures Chronological(fills) == fills
  {
    QuantitiesPositive(cash, fills);
    NothingDropped(cash, fills);
    SortOrdered(fills, FilledAt);
  }

  /** What a new fill must satisfy against the current book. */
  ghost predicate Fits(b: Book, f: Fill) {
    GoodFill(f)
    && (f.side == SELL ==> f.symbol in b.positions && f.qty == b.positions[f.symbol].qty)
  }

  lemma FitsApplies(b: Book, f: Fill)
    requires QtyPositive(b) && Fits(b, f)
    ensures Apply(b, f).Ok?
    ensures f.side == SELL ==> Apply(b, f).value.positions == b.positions - {f.symbol}
  {}

  lemma AppendCloses(cash: real, fills: seq<Fill>, f: Fill)
    requires ClosesExactly(cash, fills)
    requires f.side == SELL ==> Replay(cash, fills).Ok? && Fits(Replay(cash, fills).value, f)
    ensures ClosesExactly(cash, fills + [f])
  {
    var all := fills + [f];
    forall n | 0 <= n < |all| && all[n].side == SELL ensures ClosesAt(cash, all, n) {
      assert all[..n] == fills[..n];
      if n == |fills| { assert fills[..n] == fills; } else { assert ClosesAt(cash, fills, n); }
    }
  }

  lemma HealthyAppend(cash: real, fills: seq<Fill>, clock: int, f: Fill)
    requires Healthy(cash, fills, clock) && clock <= f.filledAt && Fits(Replay(cash, fills).value, f)
    ensures Healthy(cash, fills + [f], f.filledAt)
    ensures Replay(cash, fills + [f]) == Apply(Replay(cash, fills).value, f)
  {
    HealthyBook(cash, fills, clock);
    ReplaySnoc(cash, fills, f);
    FitsApplies(Replay(cash, fills).value, f);
    AppendCloses(cash, fills, f);
  }

  lemma HealthyLater(cash: real, fills: seq<Fill>, clock: int, later: int)
    requires Healthy(cash, fills, clock) && clock <= later
    ensures Healthy(cash, fills, later)
  {}

  // ----- one cycle inside a run -----

  /** The fill that the cycle plans. */
  function JobFill(c: CycleConfig, j: Job): Option<Fill>
    requires c.Valid()
  {
    CycleFill(c, j.input, j.turn.view)
  }

  /** A cycle contributes at most its one planned fill, and that one unless it raises. */
  lemma RowsFills(c: CycleConfig, j: Job)
    requires c.Valid()
    ensures FillsOf(CycleRows(c, j)) == []
            || (JobFill(c, j) != None && FillsOf(CycleRows(c, j)) == [JobFill(c, j).value])
    ensures !Raises(c, j) ==> FillsOf(CycleRows(c, j)) == ToSeq(JobFill(c, j))
  {
    CycleFills(c, j.input, j.turn.view);
    PlanRowsFills(PlanOf(c, j), j.turn.budget, ToSeq(JobFill(c, j)));
  }

  lemma PlanRowsFills(p: Plan, budget: nat, fills: seq<Fill>)
    requires FillsOf(p.writes) == fills && |fills| <= 1
    ensures FillsOf(Upto(p.writes, budget) + [RunnerRow(CycleError)]) in [[], fills]
    ensures FillsOf(Upto(p.writes, budget) + []) in [[], fills]
    ensures budget >= |p.writes| ==> FillsOf(Upto(p.writes, budget) + []) == fills
  {
    FillsUpto(p.writes, budget);
    var done := FillsOf(Upto(p.writes, budget));
    assert done == [] || (|done| == 1 && done == fills);
    FillsAppend(Upto(p.writes, budget), [RunnerRow(CycleError)]);
    assert FillsOf([RunnerRow(CycleError)]) == [] && done + [] == done;
    assert Upto(p.writes, budget) + [] == Upto(p.writes, budget);
  }

  lemma {:induction false} SomeFill(ws: seq<Write>, n: nat)
    requires n < |ws| && ws[n].ExecutionRow?
    ensures FillsOf(ws) != []
  {
    if n < |ws| - 1 { SomeFill(ws[..|ws| - 1], n); }
  }

  /** The cycle sells, and the fault comes after the sale: the row of the fill is the third one. */
  predicate Sells(c: CycleConfig, j: Job) { ExitSell(c, j.input) != None && j.turn.budget >= 3 }

  /** The rows of a plan up to a fault have a fill exactly if they reach the third row. */
  lemma ThirdRow(ws: seq<Write>, budget: nat, tail: seq<Write>)
    requires |ws| >= 3 && !ws[0].ExecutionRow? && !ws[1].ExecutionRow? && ws[2].ExecutionRow?
    ensures FillsOf(Upto(ws, budget) + tail) == [] ==> budget < 3
    ensures budget < 3 && (forall n :: 0 <= n < |tail| ==> !tail[n].ExecutionRow?)
            ==> FillsOf(Upto(ws, budget) + tail) == []
  {
    var all := Upto(ws, budget) + tail;
    if budget >= 3 {
      assert all[2] == ws[2];
      SomeFill(all, 2);
    } else if forall n :: 0 <= n < |tail| ==> !tail[n].ExecutionRow? {
      NoFills(all);
    }
  }

  lemma SaleRows(c: CycleConfig, j: Job)
    requires c.Valid() && ExitSell(c, j.input) != None
    ensures var ws := PlanOf(c, j).writes;
            |ws| >= 3 && !ws[0].ExecutionRow? && !ws[1].ExecutionRow? && ws[2].ExecutionRow?
  {}

  /** What one cycle adds: nothing, its one planned sale exactly if it sells, or its one planned BUY. */
  lemma RowsKinds(c: CycleConfig, j: Job)
    requires c.Valid()
    ensures ExitSell(c, j.input) != None
            ==> FillsOf(CycleRows(c, j)) == (if Sells(c, j) then [ExitSell(c, j.input).value] else [])
    ensures ExitSell(c, j.input) == None && FillsOf(CycleRows(c, j)) != []
            ==> EntryBuy(c, j.input, j.turn.view) != None
                && FillsOf(CycleRows(c, j)) == [EntryBuy(c, j.input, j.turn.view).value]
  {
    RowsFills(c, j);
    if ExitSell(c, j.input) != None {
      SaleRows(c, j);
      ThirdRow(PlanOf(c, j).writes, j.turn.budget,
               if Raises(c, j) && j.turn.handler != RowFails then [RunnerRow(CycleError)] else []);
    }
  }

  /** The planned fill of a cycle fits a book in which its symbol has the position it was shown. */
  lemma JobFillFits(c: CycleConfig, j: Job, b: Book)
    requires c.Valid() && JobFill(c, j) != None
    ensures var f := JobFill(c, j).value;
            f.symbol == j.input.symbol && f.filledAt == j.input.now
            && (f.side == BUY ==> j.turn.view.mode == PaperAuto)
            && (f.side == BUY || j.input.position == Held(b, j.input.symbol) ==> Fits(b, f))
            && (f.side == SELL <==> ExitSell(c, j.input) != None)
  {
    if ExitSell(c, j.input) != None { ExitSellFacts(c, j.input); } else { EntryBuyFacts(c, j.input, j.turn.view); }
  }

  /** A fill only touches its own symbol. */
  lemma ApplyLocal(b: Book, f: Fill, s: string)
    requires Apply(b, f).Ok? && s != f.symbol
    ensures Held(Apply(b, f).value, s) == Held(b, s)
  {}

  // ----- the cycles of a run -----

  ghost predicate Distinct(r: Run) {
    forall m, n :: 0 <= m < n < |r.symbols| ==> r.symbols[m].symbol != r.symbols[n].symbol
  }

  ghost predicate DistinctJobs(jobs: seq<Job>) {
    forall m, n :: 0 <= m < n < |jobs| ==> jobs[m].input.symbol != jobs[n].input.symbol
  }

  /** All inputs show the positions of one book at one time, and a symbol has one input. */
  ghost predicate Show(jobs: seq<Job>, b: Book, now: int) {
    && (forall n :: 0 <= n < |jobs| ==>
          jobs[n].input.now == now && jobs[n].input.position == Held(b, jobs[n].input.symbol))
    && forall m, n :: 0 <= m < n < |jobs| && jobs[m].input.symbol == jobs[n].input.symbol
                      ==> jobs[m].input == jobs[n].input
  }

  /** Cycles k and m sell one symbol. */
  ghost predicate SameSale(c: CycleConfig, jobs: seq<Job>, k: nat, m: nat)
    requires k < |jobs| && m < |jobs|
  {
    jobs[k].input.symbol == jobs[m].input.symbol && Sells(c, jobs[k]) && Sells(c, jobs[m])
  }

  /** Two of the first n cycles sell one symbol. */
  ghost predicate SoldTwice(c: CycleConfig, jobs: seq<Job>, n: nat)
    requires n <= |jobs|
  {
    exists k, m :: 0 <= k < m < n && SameSale(c, jobs, k, m)
  }

  /** None of the first n cycles has persisted a fill of s. */
  ghost predicate Unfilled(c: CycleConfig, jobs: seq<Job>, n: nat, s: string)
    requires c.Valid() && n <= |jobs|
  {
    forall m :: 0 <= m < n && jobs[m].input.symbol == s ==> FillsOf(CycleRows(c, jobs[m])) == []
  }

  /** No symbol that one of the first n cycles sold is open. */
  ghost predicate SoldOut(c: CycleConfig, jobs: seq<Job>, n: nat, b: Book)
    requires n <= |jobs|
  {
    forall m :: 0 <= m < n && Sells(c, jobs[m]) ==> jobs[m].input.symbol !in b.positions
  }

  /** After n cycles that sell nothing twice: the log is healthy, every symbol without a fill still has the
      position that the run's snapshot shows, and what was sold is gone. */
  ghost predicate MidRun(c: CycleConfig, cash: real, b0: Book, fills: seq<Fill>, jobs: seq<Job>, now: int, n: nat)
    requires c.Valid() && n <= |jobs|
  {
    && Healthy(cash, fills, now)
    && (forall s :: Unfilled(c, jobs, n, s) ==> Held(Replay(cash, fills).value, s) == Held(b0, s))
    && SoldOut(c, jobs, n, Replay(cash, fills).value)
  }

  lemma NoSale(c: CycleConfig, j: Job)
    requires c.Valid() && FillsOf(CycleRows(c, j)) == []
    ensures !Sells(c, j)
  {
    RowsKinds(c, j);
  }

  lemma SoldOutNext(c: CycleConfig, jobs: seq<Job>, n: nat, b: Book)
    requires n < |jobs| && SoldOut(c, jobs, n, b) && !Sells(c, jobs[n])
    ensures SoldOut(c, jobs, n + 1, b)
  {}

  lemma UnfilledBefore(c: CycleConfig, jobs: seq<Job>, n: nat, s: string)
    requires c.Valid() && n < |jobs| && Unfilled(c, jobs, n + 1, s)
    ensures Unfilled(c, jobs, n, s)
  {}

  lemma NothingAdded(c: CycleConfig, cash: real, b0: Book, fills: seq<Fill>, jobs: seq<Job>, now: int, n: nat)
    requires c.Valid() && n < |jobs| && MidRun(c, cash, b0, fills, jobs, now, n)
    requires FillsOf(CycleRows(c, jobs[n])) == []
    ensures MidRun(c, cash, b0, fills, jobs, now, n + 1)
  {
    NoSale(c, jobs[n]);
    SoldOutNext(c, jobs, n, Replay(cash, fills).value);
    forall s | Unfilled(c, jobs, n + 1, s) ensures Held(Replay(cash, fills).value, s) == Held(b0, s) {
      UnfilledBefore(c, jobs, n, s);
    }
  }

  lemma FillAdded(c: CycleConfig, cash: real, b0: Book, fills: seq<Fill>, jobs: seq<Job>, now: int, n: nat, f: Fill)
    requires c.Valid() && n < |jobs| && MidRun(c, cash, b0, fills, jobs, now, n)
    requires FillsOf(CycleRows(c, jobs[n])) == [f]
    requires Fits(Replay(cash, fills).value, f) && f.symbol == jobs[n].input.symbol && f.filledAt == now
    requires Apply(Replay(cash, fills).value, f).Ok?
    requires SoldOut(c, jobs, n + 1, Apply(Replay(cash, fills).value, f).value)
    ensures MidRun(c, cash, b0, fills + [f], jobs, now, n + 1)
  {
    HealthyAppend(cash, fills, now, f);
    forall s | Unfilled(c, jobs, n + 1, s) ensures Held(Replay(cash, fills + [f]).value, s) == Held(b0, s) {
      UnfilledBefore(c, jobs, n, s);
      assert s != f.symbol;
      ApplyLocal(Replay(cash, fills).value, f, s);
    }
  }

  /** A sale of a symbol that no earlier cycle has sold. */
  lemma FirstSale(c: CycleConfig, b0: Book, jobs: seq<Job>, now: int, n: nat)
    requires c.Valid() && n < |jobs| && Show(jobs, b0, now) && Sells(c, jobs[n]) && !SoldTwice(c, jobs, n + 1)
    ensures Unfilled(c, jobs, n, jobs[n].input.symbol)
  {
    forall m | 0 <= m < n && jobs[m].input.symbol == jobs[n].input.symbol ensures FillsOf(CycleRows(c, jobs[m])) == [] {
      assert jobs[m].input == jobs[n].input;
      assert !SameSale(c, jobs, m, n);
      RowsKinds(c, jobs[m]);
    }
  }

  lemma SaleSoldOut(c: CycleConfig, jobs: seq<Job>, n: nat, b: Book, f: Fill)
    requires n < |jobs| && SoldOut(c, jobs, n, b) && f.symbol == jobs[n].input.symbol
    requires QtyPositive(b) && Fits(b, f) && f.side == SELL
    ensures Apply(b, f).Ok? && SoldOut(c, jobs, n + 1, Apply(b, f).value)
  {
    FitsApplies(b, f);
  }

  /** A BUY opens no symbol that was sold: one input cannot ask for both. */
  lemma BuySoldOut(c: CycleConfig, b0: Book, jobs: seq<Job>, now: int, n: nat, b: Book, f: Fill)
    requires n < |jobs| && Show(jobs, b0, now) && ExitSell(c, jobs[n].input) == None
    requires SoldOut(c, jobs, n, b) && f.symbol == jobs[n].input.symbol
    requires QtyPositive(b) && Fits(b, f) && f.side == BUY
    ensures Apply(b, f).Ok? && SoldOut(c, jobs, n + 1, Apply(b, f).value)
  {
    FitsApplies(b, f);
    forall m | 0 <= m < n + 1 && Sells(c, jobs[m]) ensures jobs[m].input.symbol !in Apply(b, f).value.positions {
      assert m < n;
      assert jobs[m].input != jobs[n].input;
    }
  }

  lemma SaleAdded(c: CycleConfig, cash: real, b0: Book, fills: seq<Fill>, jobs: seq<Job>, now: int, n: nat)
    requires c.Valid() && n < |jobs| && Show(jobs, b0, now) && MidRun(c, cash, b0, fills, jobs, now, n)
    requires Sells(c, jobs[n]) && !SoldTwice(c, jobs, n + 1)
    ensures MidRun(c, cash, b0, fills + [ExitSell(c, jobs[n].input).value], jobs, now, n + 1)
  {
    var b, f := Replay(cash, fills).value, ExitSell(c, jobs[n].input).value;
    FirstSale(c, b0, jobs, now, n);
    JobFillFits(c, jobs[n], b);
    HealthyBook(cash, fills, now);
    SaleSoldOut(c, jobs, n, b, f);
    RowsKinds(c, jobs[n]);
    FillAdded(c, cash, b0, fills, jobs, now, n, f);
  }

  lemma BuyAdded(c: CycleConfig, cash: real, b0: Book, fills: seq<Fill>, jobs: seq<Job>, now: int, n: nat)
    requires c.Valid() && n < |jobs| && Show(jobs, b0, now) && MidRun(c, cash, b0, fills, jobs, now, n)
    requires ExitSell(c, jobs[n].input) == None && FillsOf(CycleRows(c, jobs[n])) != []
    ensures MidRun(c, cash, b0, fills + FillsOf(CycleRows(c, jobs[n])), jobs, now, n + 1)
  {
    RowsKinds(c, jobs[n]);
    var b, f := Replay(cash, fills).value, EntryBuy(c, jobs[n].input, jobs[n].turn.view).value;
    JobFillFits(c, jobs[n], b);
    HealthyBook(cash, fills, now);
    BuySoldOut(c, b0, jobs, now, n, b, f);
    FillAdded(c, cash, b0, fills, jobs, now, n, f);
  }

  lemma CycleStep(c: CycleConfig, cash: real, b0: Book, fills: seq<Fill>, jobs: seq<Job>, now: int, n: nat)
    requires c.Valid() && n < |jobs| && Show(jobs, b0, now) && MidRun(c, cash, b0, fills, jobs, now, n)
    requires !SoldTwice(c, jobs, n + 1)
    ensures MidRun(c, cash, b0, fills + FillsOf(CycleRows(c, jobs[n])), jobs, now, n + 1)
  {
    RowsKinds(c, jobs[n]);
    if FillsOf(CycleRows(c, jobs[n])) == [] {
      assert fills + [] == fills;
      NothingAdded(c, cash, b0, fills, jobs, now, n);
    } else if ExitSell(c, jobs[n].input) != None {
      SaleAdded(c, cash, b0, fills, jobs, now, n);
    } else {
      BuyAdded(c, cash, b0, fills, jobs, now, n);
    }
  }

  /** The second sale of a symbol finds nothing to sell. */
  lemma SecondSale(c: CycleConfig, cash: real, b0: Book, fills: seq<Fill>, jobs: seq<Job>, now: int, n: nat)
    requires c.Valid() && n < |jobs| && Show(jobs, b0, now) && MidRun(c, cash, b0, fills, jobs, now, n)
    requires !SoldTwice(c, jobs, n) && SoldTwice(c, jobs, n + 1)
    ensures Replay(cash, fills + FillsOf(CycleRows(c, jobs[n]))) == Err(NoPosition)
  {
    var k, m :| 0 <= k < m < n + 1 && SameSale(c, jobs, k, m);
    assert m == n;
    RowsKinds(c, jobs[n]);
    ExitSellFacts(c, jobs[n].input);
    ReplaySnoc(cash, fills, ExitSell(c, jobs[n].input).value);
  }

  ghost predicate Timed(fills: seq<Fill>, now: int) {
    Ordered(fills, FilledAt) && forall n :: 0 <= n < |fills| ==> fills[n].filledAt <= now
  }

  lemma TimedStep(c: CycleConfig, fills: seq<Fill>, j: Job)
    requires c.Valid() && Timed(fills, j.input.now)
    ensures Timed(fills + FillsOf(CycleRows(c, j)), j.input.now)
  {
    RowsFills(c, j);
    if FillsOf(CycleRows(c, j)) == [] {
      assert fills + [] == fills;
    } else {
      JobFillFits(c, j, Book(0.0, map[], 0.0));
    }
  }

  /** After n cycles: healthy as long as nothing is sold twice; the second sale is refused for good. */
  ghost predicate Outcome(c: CycleConfig, cash: real, b0: Book, fills: seq<Fill>, jobs: seq<Job>, now: int, n: nat)
    requires c.Valid() && n <= |jobs|
  {
    && Timed(fills, now)
    && if SoldTwice(c, jobs, n) then Replay(cash, fills) == Err(NoPosition)
       else MidRun(c, cash, b0, fills, jobs, now, n)
  }

  lemma FailureStays(cash: real, fills: seq<Fill>, more: seq<Fill>)
    requires Replay(cash, fills).Err?
    ensures Replay(cash, fills + more) == Replay(cash, fills)
  {
    assert (fills + more)[..|fills|] == fills;
    Accounting.ErrorPersists(cash, fills + more, |fills|);
  }

  lemma OutcomeStep(c: CycleConfig, cash: real, b0: Book, fills: seq<Fill>, jobs: seq<Job>, now: int, n: nat)
    requires c.Valid() && n < |jobs| && Show(jobs, b0, now) && Outcome(c, cash, b0, fills, jobs, now, n)
    ensures Outcome(c, cash, b0, fills + FillsOf(CycleRows(c, jobs[n])), jobs, now, n + 1)
  {
    TimedStep(c, fills, jobs[n]);
    if SoldTwice(c, jobs, n) {
      SoldTwiceStays(c, jobs, n);
      FailureStays(cash, fills, FillsOf(CycleRows(c, jobs[n])));
    } else if SoldTwice(c, jobs, n + 1) {
      SecondSale(c, cash, b0, fills, jobs, now, n);
    } else {
      CycleStep(c, cash, b0, fills, jobs, now, n);
    }
  }

  lemma SoldTwiceStays(c: CycleConfig, jobs: seq<Job>, n: nat)
    requires n < |jobs| && SoldTwice(c, jobs, n)
    ensures SoldTwice(c, jobs, n + 1)
  {
    var k, m :| 0 <= k < m < n && SameSale(c, jobs, k, m);
    assert SameSale(c, jobs, k, m);
  }

  lemma CyclesFills(c: CycleConfig, log: seq<Write>, jobs: seq<Job>, n: nat)
    requires c.Valid() && n < |jobs|
    ensures FillsOf(CyclesLog(c, log, jobs, n + 1))
         == FillsOf(CyclesLog(c, log, jobs, n)) + FillsOf(CycleRows(c, jobs[n]))
  {
    CyclesStep(c, log, jobs, n);
    FillsAppend(CyclesLog(c, log, jobs, n), CycleRows(c, jobs[n]));
  }

  ghost predicate OutcomeAfter(c: CycleConfig, cash: real, log: seq<Write>, b: Book, jobs: seq<Job>, now: int, n: nat)
    requires c.Valid() && n <= |jobs|
  {
    Outcome(c, cash, b, FillsOf(CyclesLog(c, log, jobs, n)), jobs, now, n)
  }

  lemma {:induction false} CyclesOutcome(c: CycleConfig, cash: real, log: seq<Write>, b: Book, jobs: seq<Job>,
                                         now: int, n: nat)
    requires c.Valid() && n <= |jobs| && Show(jobs, b, now) && OutcomeAfter(c, cash, log, b, jobs, now, 0)
    ensures OutcomeAfter(c, cash, log, b, jobs, now, n)
  {
    if n != 0 {
      var m := n - 1;
      CyclesOutcome(c, cash, log, b, jobs, now, m);
      CyclesFills(c, log, jobs, m);
      OutcomeStep(c, cash, b, FillsOf(CyclesLog(c, log, jobs, m)), jobs, now, m);
    }
  }

  /** A healthy log that replays to the book shown is where cycles can start. */
  lemma OutcomeStart(c: CycleConfig, cash: real, log: seq<Write>, b: Book, jobs: seq<Job>, now: int)
    requires c.Valid() && Healthy(cash, FillsOf(log), now) && Replay(cash, FillsOf(log)) == Ok(b)
    ensures OutcomeAfter(c, cash, log, b, jobs, now, 0)
  {}

  /** Over distinct symbols nothing can be sold twice. */
  lemma DistinctSellsOnce(c: CycleConfig, jobs: seq<Job>, n: nat)
    requires DistinctJobs(jobs) && n <= |jobs|
    ensures !SoldTwice(c, jobs, n)
  {}

  lemma FillsUnchanged(log: seq<Write>, more: seq<Write>)
    requires forall j :: 0 <= j < |more| ==> !more[j].ExecutionRow?
    ensures FillsOf(log + more) == FillsOf(log)
  {
    FillsAppend(log, more);
    NoFills(more);
  }

  lemma JobsShow(g: RunConfig, log: seq<Write>, b: Book, r: Run)
    ensures Show(JobsOf(g, log, b, r), b, r.now)
    ensures Distinct(r) ==> DistinctJobs(JobsOf(g, log, b, r))
  {}

  // ----- a whole run, and any number of them -----

  lemma EndFills(log: seq<Write>)
    ensures FillsOf(log + [RunnerRow(LoopFinished)]) == FillsOf(log) && FillsOf(log + []) == FillsOf(log)
  {
    FillsUnchanged(log, [RunnerRow(LoopFinished)]);
    assert log + [] == log;
  }

  lemma StartedFills(g: RunConfig, log: seq<Write>, r: Run)
    requires g.cycle.Valid() && Starts(g, log, r)
    ensures FillsOf(StartedLog(g, log, r)) == FillsOf(CycledLog(g, log, Rebuilt(g, log).value, r))
  {
    EndFills(CycledLog(g, log, Rebuilt(g, log).value, r));
  }

  /** Only a run that starts its cycles adds fills, and only its cycles do. */
  lemma RunFills(g: RunConfig, log: seq<Write>, r: Run)
    requires g.cycle.Valid()
    ensures FillsOf(Started(log)) == FillsOf(log) && Rebuilt(g, Started(log)) == Rebuilt(g, log)
    ensures FillsOf(RunLog(g, log, r))
         == if Starts(g, Started(log), r) then FillsOf(CycledLog(g, Started(log), Rebuilt(g, log).value, r))
            else FillsOf(log)
  {
    FillsUnchanged(log, [RunnerRow(LoopStarted)]);
    if Starts(g, Started(log), r) { StartedFills(g, Started(log), r); }
  }

  lemma PreparedFills(g: RunConfig, log: seq<Write>, b: Book, r: Run)
    ensures FillsOf(Prepared(g, log, b, r)) == FillsOf(log)
  {
    FillsUnchanged(log, BaselineRows(log, r.now, AccountEquity(g, b, r)));
  }

  /** A healthy log replays, with or without the first rows of a run. */
  lemma StartHealthy(g: RunConfig, log: seq<Write>, r: Run, clock: int)
    requires g.cycle.Valid() && Healthy(g.initialCash, FillsOf(log), clock) && clock <= r.now
    ensures Rebuilt(g, log) == Replay(g.initialCash, FillsOf(log)) && Rebuilt(g, log).Ok?
    ensures var b := Rebuilt(g, log).value;
            OutcomeAfter(g.cycle, g.initialCash, Prepared(g, log, b, r), b, JobsOf(g, log, b, r), r.now, 0)
  {
    HealthyBook(g.initialCash, FillsOf(log), clock);
    HealthyLater(g.initialCash, FillsOf(log), clock, r.now);
    var b := Rebuilt(g, log).value;
    PreparedFills(g, log, b, r);
    OutcomeStart(g.cycle, g.initialCash, Prepared(g, log, b, r), b, JobsOf(g, log, b, r), r.now);
  }

  /** The run reaches two cycles that sell one symbol: it is listed twice, an exit is due, and both sales get
      into the log. */
  ghost predicate DoubleSale(g: RunConfig, log: seq<Write>, r: Run)
    requires g.cycle.Valid()
  {
    && Starts(g, Started(log), r)
    && var jobs := JobsOf(g, Started(log), Rebuilt(g, Started(log)).value, r);
       SoldTwice(g.cycle, jobs, Reached(g.cycle, jobs, 0))
  }

  /** The fills of the log, healthy or refusing a second sale. */
  ghost predicate SafeUnless(double: bool, cash: real, fills: seq<Fill>, now: int) {
    if double then Chronological(fills) == fills && Replay(cash, fills) == Err(NoPosition)
    else Healthy(cash, fills, now)
  }

  lemma CycledOutcome(g: RunConfig, log: seq<Write>, r: Run, clock: int)
    requires g.cycle.Valid() && Healthy(g.initialCash, FillsOf(log), clock) && clock <= r.now && Starts(g, log, r)
    ensures var b := Rebuilt(g, log).value;
            var jobs := JobsOf(g, log, b, r);
            SafeUnless(SoldTwice(g.cycle, jobs, Reached(g.cycle, jobs, 0)), g.initialCash,
                       FillsOf(CycledLog(g, log, b, r)), r.now)
  {
    var b := Rebuilt(g, log).value;
    var jobs := JobsOf(g, log, b, r);
    StartHealthy(g, log, r, clock);
    JobsShow(g, log, b, r);
    CyclesOutcome(g.cycle, g.initialCash, Prepared(g, log, b, r), b, jobs, r.now, Reached(g.cycle, jobs, 0));
    SortOrdered(FillsOf(CycledLog(g, log, b, r)), FilledAt);
  }

  lemma RunOutcome(g: RunConfig, log: seq<Write>, r: Run, clock: int)
    requires g.cycle.Valid() && Healthy(g.initialCash, FillsOf(log), clock) && clock <= r.now
    ensures SafeUnless(DoubleSale(g, log, r), g.initialCash, FillsOf(RunLog(g, log, r)), r.now)
  {
    RunFills(g, log, r);
    if Starts(g, Started(log), r) {
      CycledOutcome(g, Started(log), r, clock);
    } else {
      HealthyLater(g.initialCash, FillsOf(log), clock, r.now);
    }
  }

  /** A run on a healthy log, over any list of symbols and wherever it raises, leaves a healthy log if and only
      if it does not sell one position twice; if it does, the log no longer replays. */
  lemma RunSafeIff(g: RunConfig, log: seq<Write>, r: Run, clock: int)
    requires g.cycle.Valid() && Healthy(g.initialCash, FillsOf(log), clock) && clock <= r.now
    ensures Healthy(g.initialCash, FillsOf(RunLog(g, log, r)), r.now) <==> !DoubleSale(g, log, r)
    ensures DoubleSale(g, log, r) ==> Rebuilt(g, RunLog(g, log, r)) == Err(NoPosition)
  {
    RunOutcome(g, log, r, clock);
  }

  lemma DistinctIsSafe(g: RunConfig, log: seq<Write>, r: Run)
    requires g.cycle.Valid() && Distinct(r)
    ensures !DoubleSale(g, log, r)
  {
    if Starts(g, Started(log), r) {
      var jobs := JobsOf(g, Started(log), Rebuilt(g, Started(log)).value, r);
      JobsShow(g, Started(log), Rebuilt(g, Started(log)).value, r);
      DistinctSellsOnce(g.cycle, jobs, Reached(g.cycle, jobs, 0));
    }
  }

  /** A run over distinct symbols keeps the log healthy, wherever it raises. */
  lemma RunKeepsHealth(g: RunConfig, log: seq<Write>, r: Run, clock: int)
    requires g.cycle.Valid() && Healthy(g.initialCash, FillsOf(log), clock) && clock <= r.now && Distinct(r)
    ensures Healthy(g.initialCash, FillsOf(RunLog(g, log, r)), r.now)
  {
    RunOutcome(g, log, r, clock);
    DistinctIsSafe(g, log, r);
  }

  /** The clock never goes back between runs. */
  ghost predicate Clocked(steps: seq<Step>) {
    forall m, n :: 0 <= m < n < |steps| && steps[m].Once? && steps[n].Once? ==> steps[m].run.now <= steps[n].run.now
  }

  /** Symbols are distinct within a run and the clock never goes back between runs. */
  ghost predicate ValidSteps(steps: seq<Step>) {
    Clocked(steps) && forall n :: 0 <= n < |steps| && steps[n].Once? ==> Distinct(steps[n].run)
  }

  ghost predicate NotAfter(steps: seq<Step>, clock: int) {
    forall n :: 0 <= n < |steps| && steps[n].Once? ==> steps[n].run.now <= clock
  }

  lemma ClockedFront(steps: seq<Step>, n: nat)
    requires Clocked(steps) && n <= |steps|
    ensures Clocked(steps[..n])
    ensures n < |steps| && steps[n].Once? ==> NotAfter(steps[..n], steps[n].run.now)
  {
    assert forall m :: 0 <= m < n ==> steps[..n][m] == steps[m];
  }

  lemma ValidFront(steps: seq<Step>, n: nat)
    requires ValidSteps(steps) && n <= |steps|
    ensures ValidSteps(steps[..n])
    ensures n < |steps| && steps[n].Once? ==> NotAfter(steps[..n], steps[n].run.now)
  {
    ClockedFront(steps, n);
    assert forall m :: 0 <= m < n ==> steps[..n][m] == steps[m];
  }

  /** Step n is a run that sells one position twice. */
  ghost predicate DoubleSaleAt(g: RunConfig, steps: seq<Step>, n: nat)
    requires g.cycle.Valid() && n < |steps|
  {
    steps[n].Once? && DoubleSale(g, After(g, [], steps[..n]), steps[n].run)
  }

  ghost predicate NoDoubleSale(g: RunConfig, steps: seq<Step>, n: nat)
    requires g.cycle.Valid() && n <= |steps|
  {
    forall m :: 0 <= m < n ==> !DoubleSaleAt(g, steps, m)
  }

  /** Once the replay raises, no run trades again, and the replay raises for good. */
  lemma {:induction false} JammedForever(g: RunConfig, log: seq<Write>, steps: seq<Step>)
    requires g.cycle.Valid() && Rebuilt(g, log).Err?
    ensures FillsOf(After(g, log, steps)) == FillsOf(log) && Rebuilt(g, After(g, log, steps)) == Rebuilt(g, log)
  {
    if |steps| != 0 {
      var front, step := steps[..|steps| - 1], steps[|steps| - 1];
      JammedForever(g, log, front);
      JammedStep(g, After(g, log, front), step);
    }
  }

  lemma JammedStep(g: RunConfig, log: seq<Write>, s: Step)
    requires g.cycle.Valid() && Rebuilt(g, log).Err?
    ensures FillsOf(AfterStep(g, log, s)) == FillsOf(log) && Rebuilt(g, AfterStep(g, log, s)) == Rebuilt(g, log)
  {
    match s
    case Row(kind) => FillsUnchanged(log, [RunnerRow(kind)]);
    case Once(r) => RunFills(g, log, r);
  }

  /** The log after n steps: healthy, or jammed by a double sale. */
  ghost predicate StepsOutcome(g: RunConfig, steps: seq<Step>, n: nat, clock: int)
    requires g.cycle.Valid() && n <= |steps|
  {
    var log := After(g, [], steps[..n]);
    if NoDoubleSale(g, steps, n) then Healthy(g.initialCash, FillsOf(log), clock)
    else Rebuilt(g, log) == Err(NoPosition)
  }

  lemma StepOutcome(g: RunConfig, log: seq<Write>, s: Step, clock: int)
    requires g.cycle.Valid() && Healthy(g.initialCash, FillsOf(log), clock) && (s.Once? ==> s.run.now == clock)
    ensures if s.Once? && DoubleSale(g, log, s.run) then Rebuilt(g, AfterStep(g, log, s)) == Err(NoPosition)
            else Healthy(g.initialCash, FillsOf(AfterStep(g, log, s)), clock)
  {
    match s
    case Row(kind) => FillsUnchanged(log, [RunnerRow(kind)]);
    case Once(r) => RunOutcome(g, log, r, clock);
  }

  lemma NextOutcome(g: RunConfig, steps: seq<Step>, n: nat, clock: int)
    requires g.cycle.Valid() && n < |steps| && StepsOutcome(g, steps, n, clock)
    requires steps[n].Once? ==> steps[n].run.now == clock
    ensures StepsOutcome(g, steps, n + 1, clock)
  {
    var log := After(g, [], steps[..n]);
    AfterNext(g, [], steps, n);
    assert NoDoubleSale(g, steps, n + 1) <==> NoDoubleSale(g, steps, n) && !DoubleSaleAt(g, steps, n);
    if NoDoubleSale(g, steps, n) { StepOutcome(g, log, steps[n], clock); } else { JammedStep(g, log, steps[n]); }
  }

  lemma OutcomeLater(g: RunConfig, steps: seq<Step>, n: nat, clock: int, later: int)
    requires g.cycle.Valid() && n <= |steps| && StepsOutcome(g, steps, n, clock) && clock <= later
    ensures StepsOutcome(g, steps, n, later)
  {}

  lemma EarlierClock(steps: seq<Step>, m: nat, clock: int)
    requires m < |steps| && Clocked(steps) && NotAfter(steps[..m + 1], clock)
    ensures var before := if steps[m].Once? then steps[m].run.now else clock;
            before <= clock && NotAfter(steps[..m], before)
  {
    ClockedFront(steps, m);
    assert forall k :: 0 <= k <= m ==> steps[..m + 1][k] == steps[k];
    assert forall k :: 0 <= k < m ==> steps[..m][k] == steps[k];
  }

  lemma {:induction false} AllOutcomes(g: RunConfig, steps: seq<Step>, n: nat, clock: int)
    requires g.cycle.Valid() && n <= |steps| && Clocked(steps) && NotAfter(steps[..n], clock)
    ensures StepsOutcome(g, steps, n, clock)
  {
    if n == 0 {
      assert FillsOf([]) == [];
    } else {
      var m := n - 1;
      var before := if steps[m].Once? then steps[m].run.now else clock;
      EarlierClock(steps, m, clock);
      AllOutcomes(g, steps, m, before);
      NextOutcome(g, steps, m, before);
      OutcomeLater(g, steps, n, before, clock);
    }
  }

  /** Replay safety, exactly: after any runs from an empty log, over any lists of symbols and raising anywhere,
      the log is healthy, its replay never raises and every SELL closes its position, if and only if no run
      has sold one position twice. Otherwise every replay raises. */
  lemma ReplaySafeIff(g: RunConfig, steps: seq<Step>, clock: int)
    requires g.cycle.Valid() && Clocked(steps) && NotAfter(steps, clock)
    ensures var log := After(g, [], steps);
            && (Healthy(g.initialCash, FillsOf(log), clock) <==> NoDoubleSale(g, steps, |steps|))
            && (Rebuilt(g, log).Ok? <==> NoDoubleSale(g, steps, |steps|))
            && (!NoDoubleSale(g, steps, |steps|) ==> Rebuilt(g, log) == Err(NoPosition))
  {
    assert steps[..|steps|] == steps;
    AllOutcomes(g, steps, |steps|, clock);
    var fills := FillsOf(After(g, [], steps));
    if Healthy(g.initialCash, fills, clock) { HealthyBook(g.initialCash, fills, clock); }
  }

  lemma ValidNeverDoubles(g: RunConfig, steps: seq<Step>)
    requires g.cycle.Valid() && ValidSteps(steps)
    ensures NoDoubleSale(g, steps, |steps|)
  {
    forall n | 0 <= n < |steps| ensures !DoubleSaleAt(g, steps, n) {
      if steps[n].Once? { DistinctIsSafe(g, After(g, [], steps[..n]), steps[n].run); }
    }
  }

  /** Distinct symbols suffice: after any runs over them from an empty log, raising anywhere, the chronological
      replay never raises, every SELL closes its position exactly, and all quantities stay positive. */
  lemma ReplaySafety(g: RunConfig, steps: seq<Step>, clock: int)
    requires g.cycle.Valid() && ValidSteps(steps) && NotAfter(steps, clock)
    ensures Healthy(g.initialCash, FillsOf(After(g, [], steps)), clock)
    ensures Rebuilt(g, After(g, [], steps)).Ok? && QtyPositive(Rebuilt(g, After(g, [], steps)).value)
  {
    ReplaySafeIff(g, steps, clock);
    ValidNeverDoubles(g, steps);
    HealthyBook(g.initialCash, FillsOf(After(g, [], steps)), clock);
  }
}
