/** trading/runtime/paper_cycle.py: one cycle for one symbol. Each stage is a plan, the list of rows it
    writes and how it ends; the imperative stages carry a plan out on a store that may fail anywhere. */
module PaperCycle {
  import opened Prelude
  import opened Ledger
  import opened Risk
  import opened PaperExecution
  import opened Exits
  import opened Gate
  import opened TradingLog

  datatype CycleConfig = CycleConfig(executor: PaperExecutor, minNotional: real, engine: Option<ExitEngine>) {
    predicate Valid() { executor.Valid() && minNotional > 0.0 }
  }

  datatype CycleInput = CycleInput(symbol: string, now: int, prices: map<string, real>,
                                   risk: Snapshot, position: Option<Position>)

  datatype Hint = Allow | AllowReduced | Reject

  /** Everything else the cycle reads while it runs: the mode at its start, the lock when the gate is
      consulted, the strategy's candidate and the AI score. All are arbitrary. */
  datatype View = View(mode: Mode, lock: Lock, candidate: Option<Candidate>, hint: Hint, score: int,
                       flags: seq<string>)

  datatype CycleResult = CycleResult(
    symbol: string, status: Status, candidatePresent: bool, riskState: Option<RiskState>,
    orderExecuted: bool, rejectReasons: seq<string>, eventIds: seq<nat>,
    exitSignal: Option<ExitSignal>, exitExecuted: bool)

  datatype CycleFault = StoreFailed | RiskFailed(error: RiskError)

  /** Rows in order, and either the result (without its event ids) or the error raised after them. */
  datatype Plan = Plan(writes: seq<Write>, end: Result<CycleResult, RiskError>)

  function Before(ws: seq<Write>, p: Plan): Plan { Plan(ws + p.writes, p.end) }

  function Ev(i: CycleInput, v: View, kind: Kind, stage: Stage, side: Option<Side>, reason: Option<string>): Write {
    EventRow(Event(kind, stage, None, i.symbol, side, v.mode, reason))
  }

  function Fin(i: CycleInput, v: View, status: Status, stage: Stage, side: Option<Side>,
               reason: Option<string>): Write
  {
    EventRow(Event(CycleFinished, stage, Some(status), i.symbol, side, v.mode, reason))
  }

  function Entry(i: CycleInput, x: Option<ExitSignal>, status: Status, candidate: bool,
                 state: Option<RiskState>, executed: bool, reasons: seq<string>): Result<CycleResult, RiskError> {
    Ok(CycleResult(i.symbol, status, candidate, state, executed, reasons, [], x, false))
  }

  // ----- exit scan -----

  datatype Scan = Scan(signal: Option<ExitSignal>, executed: bool, writes: seq<Write>)

  function ReasonName(r: ExitReason): string {
    match r
    case HardStop => "hard_stop"
    case TakeProfit => "take_profit"
    case TimeExit => "time_exit"
  }

  function ExitDecision(e: ExitEngine, i: CycleInput, p: Position): Option<ExitSignal>
    requires i.symbol in i.prices
  {
    e.Decide(p.stop, Holding(i.symbol, p.qty, p.avg, p.openedAt.GetOr(i.now)), i.prices[i.symbol], i.now)
  }

  function ScanExit(c: CycleConfig, i: CycleInput, v: View): Scan {
    if c.engine == None || i.position == None || i.position.value.qty <= 0.0 || i.symbol !in i.prices
    then Scan(None, false, [])
    else match ExitDecision(c.engine.value, i, i.position.value)
      case None => Scan(None, false, [Ev(i, v, ExitEvaluated, ExitStage, Some(SELL), None)])
      case Some(x) =>
        var reason := Some(ReasonName(x.reason));
        var found := [Ev(i, v, ExitSignalGenerated, ExitStage, Some(SELL), reason)];
        match c.executor.ExecuteMarketSell(i.symbol, x.qty, i.prices[i.symbol], i.now)
        case Rejected(_) => Scan(Some(x), false, found)
        case Filled(order, fill) =>
          Scan(Some(x), true,
               found + [ExecutionRow(order, fill), Ev(i, v, OrderExecuted, ResultStage, Some(SELL), reason)])
  }

  // ----- the entry pipeline, last stage first -----

  function BuyPlan(c: CycleConfig, i: CycleInput, v: View, x: Option<ExitSignal>, st: RiskState, z: Size): Plan
    requires c.Valid() && i.symbol in i.prices
  {
    match c.executor.ExecuteMarketBuy(i.symbol, z, i.prices[i.symbol], i.now)
    case Filled(order, fill) =>
      Plan([ExecutionRow(order, fill), Ev(i, v, OrderExecuted, ResultStage, Some(BUY), None),
            Fin(i, v, StatusExecuted, ResultStage, Some(BUY), None)],
           Entry(i, x, StatusExecuted, true, Some(st), true, []))
    case Rejected(reasons) =>
      Plan([Ev(i, v, ExecutionResult, ResultStage, Some(BUY),
               Some(if |reasons| != 0 then reasons[0] else "execution_rejected")),
            Fin(i, v, StatusNoExecution, NoExecutionStage, Some(BUY), None)],
           Entry(i, x, StatusNoExecution, true, Some(st), false, []))
  }

  function SimulatedPrice(c: CycleConfig, price: real): real {
    price * (1.0 + c.executor.slippageBps / 10000.0)
  }

  function GatePlan(c: CycleConfig, i: CycleInput, v: View, x: Option<ExitSignal>, st: RiskState, z: Size): Plan
    requires c.Valid() && i.symbol in i.prices
  {
    var d := Decide(v.mode, v.lock, true, i.risk.killSwitch);
    var attempted := Ev(i, v, ExecutionAttempted, AttemptStage, Some(BUY), if d.allowed then None else Some(d.reason));
    if !d.allowed then
      var reason := "execution_gate:" + d.reason;
      Plan([attempted, Ev(i, v, ExecutionGateBlocked, AttemptStage, Some(BUY), Some(reason)),
            Fin(i, v, StatusGateBlocked, AttemptStage, Some(BUY), Some(reason))],
           Entry(i, x, StatusGateBlocked, true, Some(st), false, [reason]))
    else if d.route == ShadowRoute then
      Plan([attempted,
            ShadowRow(i.symbol, z.notional, i.prices[i.symbol], SimulatedPrice(c, i.prices[i.symbol])),
            Ev(i, v, ShadowRecorded, ResultStage, Some(BUY), Some("live_shadow")),
            Fin(i, v, StatusShadowRecorded, ResultStage, Some(BUY), Some("live_shadow"))],
           Entry(i, x, StatusShadowRecorded, true, Some(st), false, []))
    else Before([attempted], BuyPlan(c, i, v, x, st, z))
  }

  function SizeFor(c: CycleConfig, i: CycleInput, k: Candidate, p: RiskProfile, d: Decision): Size {
    CalculatePositionSize(k, d, p, i.risk.equity, c.minNotional)
  }

  function SizePlan(c: CycleConfig, i: CycleInput, v: View, x: Option<ExitSignal>, k: Candidate,
                    p: RiskProfile, d: Decision): Plan
    requires c.Valid()
  {
    if i.symbol !in i.prices then
      Plan([Fin(i, v, StatusSizeRejected, SizeStage, Some(BUY), Some("missing_market_price"))],
           Entry(i, x, StatusSizeRejected, true, Some(d.state), false, ["missing_market_price"]))
    else
      var z := SizeFor(c, i, k, p, d);
      if !z.approved then
        Plan([Ev(i, v, RiskRejected, SizeStage, Some(BUY), Some("position_size_rejected")),
              Fin(i, v, StatusSizeRejected, SizeStage, Some(BUY), Some("position_size_rejected"))],
             Entry(i, x, StatusSizeRejected, true, Some(d.state), false, ["position_size_rejected"] + z.reasons))
      else Before([Ev(i, v, PositionSized, SizeStage, Some(BUY), None)], GatePlan(c, i, v, x, d.state, z))
  }

  function RiskPlan(c: CycleConfig, i: CycleInput, v: View, x: Option<ExitSignal>, k: Candidate): Plan
    requires c.Valid()
  {
    match SelectRiskProfile(i.risk.equity, DEFAULT_PROFILES)
    case Err(e) => Plan([], Err(e))
    case Ok(p) =>
      match PreTrade(i.risk, p)
      case Err(e) => Plan([], Err(e))
      case Ok(d) =>
        if !d.approved then
          Plan([Ev(i, v, RiskRejected, RiskStage, Some(BUY), Some("risk_rejected")),
                Fin(i, v, StatusRiskRejected, RiskStage, Some(BUY), Some("risk_rejected"))],
               Entry(i, x, StatusRiskRejected, true, Some(d.state), false, ["risk_rejected"] + d.reasons))
        else SizePlan(c, i, v, x, k, p, d)
  }

  predicate AiRejects(v: View) { v.hint == Reject || v.score < 50 }

  function AiPlan(c: CycleConfig, i: CycleInput, v: View, x: Option<ExitSignal>, k: Candidate): Plan
    requires c.Valid()
  {
    if AiRejects(v) then
      Plan([Ev(i, v, RiskRejected, RiskStage, Some(BUY), Some("ai_rejected")),
            Fin(i, v, StatusAiRejected, RiskStage, Some(BUY), Some("ai_rejected"))],
           Entry(i, x, StatusAiRejected, true, None, false, ["ai_rejected"] + v.flags))
    else Before([Ev(i, v, RiskChecked, RiskStage, Some(BUY), Some("ai_approved"))], RiskPlan(c, i, v, x, k))
  }

  function EntryPlan(c: CycleConfig, i: CycleInput, v: View, x: Option<ExitSignal>): Plan
    requires c.Valid()
  {
    match v.candidate
    case None =>
      Plan([Fin(i, v, StatusNoSignal, SignalStage, None, Some("no_candidate"))],
           Entry(i, x, StatusNoSignal, false, None, false, []))
    case Some(k) => Before([Ev(i, v, SignalGenerated, SignalStage, Some(BUY), None)], AiPlan(c, i, v, x, k))
  }

  function AfterScan(c: CycleConfig, i: CycleInput, v: View): Plan
    requires c.Valid()
  {
    var s := ScanExit(c, i, v);
    if s.executed then
      Plan([Fin(i, v, StatusExitExecuted, ResultStage, Some(SELL),
                Some(if s.signal == None then "exit_executed" else ReasonName(s.signal.value.reason)))],
           Ok(CycleResult(i.symbol, StatusExitExecuted, false, None, false, [], [], s.signal, true)))
    else EntryPlan(c, i, v, s.signal)
  }

  /** The whole cycle. */
  function CyclePlan(c: CycleConfig, i: CycleInput, v: View): Plan
    requires c.Valid()
  {
    Before([Ev(i, v, CycleStarted, StartedStage, None, None)], Before(ScanExit(c, i, v).writes, AfterScan(c, i, v)))
  }

  // ----- carrying plans out -----

  /** From log0 with `budget0` writes left, the plan was carried out as far as the store allowed. */
  ghost predicate Performed(log0: seq<Write>, budget0: nat, ids0: seq<nat>, plan: Plan,
                            log1: seq<Write>, r: Result<CycleResult, CycleFault>)
  {
    && log1 == log0 + Upto(plan.writes, budget0)
    && (budget0 < |plan.writes| ==> r == Err(StoreFailed))
    && (budget0 >= |plan.writes| ==>
          match plan.end
          case Err(e) => r == Err(RiskFailed(e))
          case Ok(x) => r == Ok(x.(eventIds := ids0 + TrackedIds(EventCount(log0), plan.writes))))
  }

  /** First some rows, then the rest of the plan. */
  lemma PerformedBefore(log0: seq<Write>, budget0: nat, ids0: seq<nat>, ws: seq<Write>, rest: Plan,
                        log1: seq<Write>, r: Result<CycleResult, CycleFault>)
    requires budget0 >= |ws|
    requires Performed(log0 + ws, budget0 - |ws|, ids0 + TrackedIds(EventCount(log0), ws), rest, log1, r)
    ensures Performed(log0, budget0, ids0, Before(ws, rest), log1, r)
  {
    UptoSplit(ws, rest.writes, budget0);
    SeqAssoc(log0, ws, Upto(rest.writes, budget0 - |ws|));
    if budget0 - |ws| >= |rest.writes| { IdsAfter(log0, ids0, ws, rest.writes); }
  }

  lemma SeqAssoc<T>(a: seq<T>, b: seq<T>, c: seq<T>)
    ensures a + b + c == a + (b + c)
  {}

  lemma IdsAfter(log0: seq<Write>, ids0: seq<nat>, ws: seq<Write>, rest: seq<Write>)
    ensures ids0 + TrackedIds(EventCount(log0), ws) + TrackedIds(EventCount(log0 + ws), rest)
         == ids0 + TrackedIds(EventCount(log0), ws + rest)
  {
    CountAppend(log0, ws);
    IdsFrom(EventCount(log0), EventCount(log0 + ws), ids0, ws, rest);
  }

  lemma IdsFrom(n: nat, m: nat, ids0: seq<nat>, ws: seq<Write>, rest: seq<Write>)
    requires m == n + EventCount(ws)
    ensures ids0 + TrackedIds(n, ws) + TrackedIds(m, rest) == ids0 + TrackedIds(n, ws + rest)
  {
    TrackedAppend(n, ws, rest);
    SeqAssoc(ids0, TrackedIds(n, ws), TrackedIds(m, rest));
  }

  lemma UptoSplit<T>(a: seq<T>, b: seq<T>, n: nat)
    requires n >= |a|
    ensures Upto(a + b, n) == a + Upto(b, n - |a|)
  {
    if n < |a + b| { assert (a + b)[..n] == a + b[..n - |a|]; }
  }

  lemma PerformedFault(log0: seq<Write>, budget0: nat, ids0: seq<nat>, ws: seq<Write>, rest: Plan,
                       log1: seq<Write>, r: Result<CycleResult, CycleFault>)
    requires budget0 < |ws| && log1 == log0 + Upto(ws, budget0) && r == Err(StoreFailed)
    ensures Performed(log0, budget0, ids0, Before(ws, rest), log1, r)
  {
    assert (ws + rest.writes)[..budget0] == ws[..budget0];
  }

  /** A stage that ends the cycle: its rows, then its result. */
  method Finish(store: TradingStore, ids: seq<nat>, ws: seq<Write>, result: CycleResult)
    returns (r: Result<CycleResult, CycleFault>)
    modifies store
    ensures Performed(old(store.log), old(store.budget), ids, Plan(ws, Ok(result)), store.log, r)
  {
    var recorded := store.RecordAll(ws);
    if recorded.Err? { return Err(StoreFailed); }
    return Ok(result.(eventIds := ids + recorded.value));
  }

  method RunBuy(store: TradingStore, c: CycleConfig, i: CycleInput, v: View, x: Option<ExitSignal>,
                st: RiskState, z: Size, ids: seq<nat>)
    returns (r: Result<CycleResult, CycleFault>)
    requires c.Valid() && i.symbol in i.prices
    modifies store
    ensures Performed(old(store.log), old(store.budget), ids, BuyPlan(c, i, v, x, st, z), store.log, r)
  {
    match c.executor.ExecuteMarketBuy(i.symbol, z, i.prices[i.symbol], i.now)
    case Filled(order, fill) =>
      r := Finish(store, ids,
        [ExecutionRow(order, fill), Ev(i, v, OrderExecuted, ResultStage, Some(BUY), None),
         Fin(i, v, StatusExecuted, ResultStage, Some(BUY), None)],
        CycleResult(i.symbol, StatusExecuted, true, Some(st), true, [], [], x, false));
    case Rejected(reasons) =>
      var reason := if |reasons| != 0 then reasons[0] else "execution_rejected";
      r := Finish(store, ids,
        [Ev(i, v, ExecutionResult, ResultStage, Some(BUY), Some(reason)),
         Fin(i, v, StatusNoExecution, NoExecutionStage, Some(BUY), None)],
        CycleResult(i.symbol, StatusNoExecution, true, Some(st), false, [], [], x, false));
  }

  method RunGate(store: TradingStore, c: CycleConfig, i: CycleInput, v: View, x: Option<ExitSignal>,
                 st: RiskState, z: Size, ids: seq<nat>)
    returns (r: Result<CycleResult, CycleFault>)
    requires c.Valid() && i.symbol in i.prices
    modifies store
    ensures Performed(old(store.log), old(store.budget), ids, GatePlan(c, i, v, x, st, z), store.log, r)
  {
    var d := Decide(v.mode, v.lock, true, i.risk.killSwitch);
    var attempted := Ev(i, v, ExecutionAttempted, AttemptStage, Some(BUY), if d.allowed then None else Some(d.reason));
    if !d.allowed {
      var reason := "execution_gate:" + d.reason;
      r := Finish(store, ids,
        [attempted, Ev(i, v, ExecutionGateBlocked, AttemptStage, Some(BUY), Some(reason)),
         Fin(i, v, StatusGateBlocked, AttemptStage, Some(BUY), Some(reason))],
        CycleResult(i.symbol, StatusGateBlocked, true, Some(st), false, [reason], [], x, false));
    } else if d.route == ShadowRoute {
      r := Finish(store, ids,
        [attempted, ShadowRow(i.symbol, z.notional, i.prices[i.symbol], SimulatedPrice(c, i.prices[i.symbol])),
         Ev(i, v, ShadowRecorded, ResultStage, Some(BUY), Some("live_shadow")),
         Fin(i, v, StatusShadowRecorded, ResultStage, Some(BUY), Some("live_shadow"))],
        CycleResult(i.symbol, StatusShadowRecorded, true, Some(st), false, [], [], x, false));
    } else {
      ghost var rest := BuyPlan(c, i, v, x, st, z);
      var recorded := store.RecordAll([attempted]);
      if recorded.Err? {
        r := Err(StoreFailed);
        PerformedFault(old(store.log), old(store.budget), ids, [attempted], rest, store.log, r);
        return;
      }
      r := RunBuy(store, c, i, v, x, st, z, ids + recorded.value);
      PerformedBefore(old(store.log), old(store.budget), ids, [attempted], rest, store.log, r);
    }
  }

  method RunSize(store: TradingStore, c: CycleConfig, i: CycleInput, v: View, x: Option<ExitSignal>,
                 k: Candidate, p: RiskProfile, d: Decision, ids: seq<nat>)
    returns (r: Result<CycleResult, CycleFault>)
    requires c.Valid()
    modifies store
    ensures Performed(old(store.log), old(store.budget), ids, SizePlan(c, i, v, x, k, p, d), store.log, r)
  {
    if i.symbol !in i.prices {
      r := Finish(store, ids, [Fin(i, v, StatusSizeRejected, SizeStage, Some(BUY), Some("missing_market_price"))],
        CycleResult(i.symbol, StatusSizeRejected, true, Some(d.state), false, ["missing_market_price"], [], x, false));
      return;
    }
    var z := SizeFor(c, i, k, p, d);
    if !z.approved {
      r := Finish(store, ids,
        [Ev(i, v, RiskRejected, SizeStage, Some(BUY), Some("position_size_rejected")),
         Fin(i, v, StatusSizeRejected, SizeStage, Some(BUY), Some("position_size_rejected"))],
        CycleResult(i.symbol, StatusSizeRejected, true, Some(d.state), false,
                    ["position_size_rejected"] + z.reasons, [], x, false));
      return;
    }
    var sized := Ev(i, v, PositionSized, SizeStage, Some(BUY), None);
    ghost var rest := GatePlan(c, i, v, x, d.state, z);
    var recorded := store.RecordAll([sized]);
    if recorded.Err? {
      r := Err(StoreFailed);
      PerformedFault(old(store.log), old(store.budget), ids, [sized], rest, store.log, r);
      return;
    }
    r := RunGate(store, c, i, v, x, d.state, z, ids + recorded.value);
    PerformedBefore(old(store.log), old(store.budget), ids, [sized], rest, store.log, r);
  }

  method RunRisk(store: TradingStore, c: CycleConfig, i: CycleInput, v: View, x: Option<ExitSignal>,
                 k: Candidate, ids: seq<nat>)
    returns (r: Result<CycleResult, CycleFault>)
    requires c.Valid()
    modifies store
    ensures Performed(old(store.log), old(store.budget), ids, RiskPlan(c, i, v, x, k), store.log, r)
  {
    var profile := SelectRiskProfile(i.risk.equity, DEFAULT_PROFILES);
    if profile.Err? { return Err(RiskFailed(profile.error)); }
    var preTrade := EvaluatePreTradeRisk(i.risk, profile.value);
    if preTrade.Err? { return Err(RiskFailed(preTrade.error)); }
    var d := preTrade.value;
    if !d.approved {
      r := Finish(store, ids,
        [Ev(i, v, RiskRejected, RiskStage, Some(BUY), Some("risk_rejected")),
         Fin(i, v, StatusRiskRejected, RiskStage, Some(BUY), Some("risk_rejected"))],
        CycleResult(i.symbol, StatusRiskRejected, true, Some(d.state), false,
                    ["risk_rejected"] + d.reasons, [], x, false));
      return;
    }
    r := RunSize(store, c, i, v, x, k, profile.value, d, ids);
  }

  method RunAi(store: TradingStore, c: CycleConfig, i: CycleInput, v: View, x: Option<ExitSignal>,
               k: Candidate, ids: seq<nat>)
    returns (r: Result<CycleResult, CycleFault>)
    requires c.Valid()
    modifies store
    ensures Performed(old(store.log), old(store.budget), ids, AiPlan(c, i, v, x, k), store.log, r)
  {
    if v.hint == Reject || v.score < 50 {
      r := Finish(store, ids,
        [Ev(i, v, RiskRejected, RiskStage, Some(BUY), Some("ai_rejected")),
         Fin(i, v, StatusAiRejected, RiskStage, Some(BUY), Some("ai_rejected"))],
        CycleResult(i.symbol, StatusAiRejected, true, None, false, ["ai_rejected"] + v.flags, [], x, false));
      return;
    }
    var checked := Ev(i, v, RiskChecked, RiskStage, Some(BUY), Some("ai_approved"));
    ghost var rest := RiskPlan(c, i, v, x, k);
    var recorded := store.RecordAll([checked]);
    if recorded.Err? {
      r := Err(StoreFailed);
      PerformedFault(old(store.log), old(store.budget), ids, [checked], rest, store.log, r);
      return;
    }
    r := RunRisk(store, c, i, v, x, k, ids + recorded.value);
    PerformedBefore(old(store.log), old(store.budget), ids, [checked], rest, store.log, r);
  }

  method RunEntry(store: TradingStore, c: CycleConfig, i: CycleInput, v: View, x: Option<ExitSignal>, ids: seq<nat>)
    returns (r: Result<CycleResult, CycleFault>)
    requires c.Valid()
    modifies store
    ensures Performed(old(store.log), old(store.budget), ids, EntryPlan(c, i, v, x), store.log, r)
  {
    if v.candidate == None {
      r := Finish(store, ids, [Fin(i, v, StatusNoSignal, SignalStage, None, Some("no_candidate"))],
        CycleResult(i.symbol, StatusNoSignal, false, None, false, [], [], x, false));
      return;
    }
    var signal := Ev(i, v, SignalGenerated, SignalStage, Some(BUY), None);
    ghost var rest := AiPlan(c, i, v, x, v.candidate.value);
    var recorded := store.RecordAll([signal]);
    if recorded.Err? {
      r := Err(StoreFailed);
      PerformedFault(old(store.log), old(store.budget), ids, [signal], rest, store.log, r);
      return;
    }
    r := RunAi(store, c, i, v, x, v.candidate.value, ids + recorded.value);
    PerformedBefore(old(store.log), old(store.budget), ids, [signal], rest, store.log, r);
  }

  /** The exit scan decides and sells; it returns what it wrote and the ids of the rows it keeps. */
  method RunExitScan(store: TradingStore, c: CycleConfig, i: CycleInput, v: View)
    returns (signal: Option<ExitSignal>, executed: bool, ids: Result<seq<nat>, Fault>)
    modifies store
    ensures var s := ScanExit(c, i, v);
            && store.log == old(store.log) + Upto(s.writes, old(store.budget))
            && (old(store.budget) < |s.writes| ==> ids == Err(StoreFault))
            && (old(store.budget) >= |s.writes|
                ==> signal == s.signal && executed == s.executed
                    && ids == Ok(TrackedIds(EventCount(old(store.log)), s.writes))
                    && store.budget == old(store.budget) - |s.writes|)
  {
    signal, executed := None, false;
    if c.engine == None || i.position == None || i.position.value.qty <= 0.0 || i.symbol !in i.prices {
      return None, false, Ok([]);
    }
    var p, price := i.position.value, i.prices[i.symbol];
    signal := c.engine.value.Evaluate(p.stop, Holding(i.symbol, p.qty, p.avg, p.openedAt.GetOr(i.now)), price, i.now);
    if signal == None {
      ids := store.RecordAll([Ev(i, v, ExitEvaluated, ExitStage, Some(SELL), None)]);
      return;
    }
    var reason := Some(ReasonName(signal.value.reason));
    var found := Ev(i, v, ExitSignalGenerated, ExitStage, Some(SELL), reason);
    var execution := c.executor.ExecuteMarketSell(i.symbol, signal.value.qty, price, i.now);
    executed := execution.Filled?;
    if executed {
      var sold := [ExecutionRow(execution.order, execution.fill),
                   Ev(i, v, OrderExecuted, ResultStage, Some(SELL), reason)];
      ids := store.RecordAll([found] + sold);
    } else {
      ids := store.RecordAll([found]);
    }
  }

  /** The cycle: after a fault at any write, exactly the rows before it are in the log. */
  method RunPaperCycle(store: TradingStore, c: CycleConfig, i: CycleInput, v: View)
    returns (r: Result<CycleResult, CycleFault>)
    requires c.Valid()
    modifies store
    ensures Performed(old(store.log), old(store.budget), [], CyclePlan(c, i, v), store.log, r)
  {
    var started := Ev(i, v, CycleStarted, StartedStage, None, None);
    ghost var scanned, rest := ScanExit(c, i, v).writes, AfterScan(c, i, v);
    var recorded := store.RecordAll([started]);
    if recorded.Err? {
      r := Err(StoreFailed);
      PerformedFault(old(store.log), old(store.budget), [], [started], Before(scanned, rest), store.log, r);
      return;
    }
    ghost var log1, budget1 := store.log, store.budget;
    var signal, executed, exitIds := RunExitScan(store, c, i, v);
    if exitIds.Err? {
      r := Err(StoreFailed);
      PerformedFault(log1, budget1, [] + recorded.value, scanned, rest, store.log, r);
      PerformedBefore(old(store.log), old(store.budget), [], [started], Before(scanned, rest), store.log, r);
      return;
    }
    var ids := [] + recorded.value + exitIds.value;
    if executed {
      var reason := if signal == None then "exit_executed" else ReasonName(signal.value.reason);
      r := Finish(store, ids, [Fin(i, v, StatusExitExecuted, ResultStage, Some(SELL), Some(reason))],
        CycleResult(i.symbol, StatusExitExecuted, false, None, false, [], [], signal, true));
    } else {
      r := RunEntry(store, c, i, v, signal, ids);
    }
    PerformedBefore(log1, budget1, [] + recorded.value, scanned, rest, store.log, r);
    PerformedBefore(old(store.log), old(store.budget), [], [started], Before(scanned, rest), store.log, r);
  }
}
