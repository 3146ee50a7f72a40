/** What every row of a cycle says: its stage, its side and its reason, kind by kind. */
module CycleWords {
  import opened Prelude
  import opened Ledger
  import opened Risk
  import opened PaperExecution
  import opened Exits
  import opened Gate
  import opened TradingLog
  import opened PaperCycle
  import opened CycleTrace
  import opened CycleTable

  predicate Says(e: Event, stage: Stage, side: Option<Side>, reason: Option<string>) {
    e.stage == stage && e.side == side && e.reason == reason
  }

  function ExitWord(c: CycleConfig, i: CycleInput): Option<string> {
    match ExitFound(c, i)
    case None => None
    case Some(x) =>
      Some(match x.reason
           case HardStop => "hard_stop"
           case TakeProfit => "take_profit"
           case TimeExit => "time_exit")
  }

  /** Why the gate blocks, if it does. */
  function GateWord(v: View): Option<string> {
    if v.mode == PaperAuto || (v.mode == LiveShadow && !v.lock.enabled) then None
    else Some(Decide(v.mode, v.lock, true, false).reason)
  }

  /** What the row rejecting an entry says, and where it says it. */
  function RejectWord(i: CycleInput, v: View): string {
    if v.hint == Reject || v.score < 50 then "ai_rejected"
    else if i.risk.equity >= 0.0 && Approves(i.risk, ProfileOf(i.risk.equity)) then "position_size_rejected"
    else "risk_rejected"
  }

  /** Each kind of row speaks from its own stage; the row that finishes a cycle is told apart (CycleTells). */
  ghost predicate Worded(w: Write, c: CycleConfig, i: CycleInput, v: View) {
    w.EventRow? ==>
      var e := w.event;
      match e.kind
      case CycleStarted => Says(e, StartedStage, None, None)
      case ExitEvaluated => Says(e, ExitStage, Some(SELL), None) && ExitFound(c, i) == None
      case ExitSignalGenerated => Says(e, ExitStage, Some(SELL), ExitWord(c, i)) && ExitFound(c, i) != None
      case OrderExecuted =>
        if ExitSell(c, i) != None then Says(e, ResultStage, Some(SELL), ExitWord(c, i))
        else Says(e, ResultStage, Some(BUY), None)
      case SignalGenerated => Says(e, SignalStage, Some(BUY), None)
      case RiskChecked => Says(e, RiskStage, Some(BUY), Some("ai_approved"))
      case RiskRejected =>
        var word := RejectWord(i, v);
        Says(e, if word == "position_size_rejected" then SizeStage else RiskStage, Some(BUY), Some(word))
      case PositionSized => Says(e, SizeStage, Some(BUY), None)
      case ExecutionAttempted => Says(e, AttemptStage, Some(BUY), GateWord(v))
      case ExecutionGateBlocked =>
        GateWord(v) != None && Says(e, AttemptStage, Some(BUY), Some("execution_gate:" + GateWord(v).value))
      case ShadowRecorded => Says(e, ResultStage, Some(BUY), Some("live_shadow"))
      case ExecutionResult => Says(e, ResultStage, Some(BUY), Some("invalid_market_price"))
      case CycleFinished => true
  }

  ghost predicate AllWorded(ws: seq<Write>, c: CycleConfig, i: CycleInput, v: View) {
    forall n :: 0 <= n < |ws| ==> Worded(ws[n], c, i, v)
  }

  lemma WordedCons(w: Write, p: Plan, c: CycleConfig, i: CycleInput, v: View)
    requires Worded(w, c, i, v) && AllWorded(p.writes, c, i, v)
    ensures AllWorded(Before([w], p).writes, c, i, v)
  {}

  lemma ScanWorded(c: CycleConfig, i: CycleInput, v: View)
    ensures AllWorded(ScanExit(c, i, v).writes, c, i, v)
  {}

  lemma BuyWorded(c: CycleConfig, i: CycleInput, v: View, x: Option<ExitSignal>, st: RiskState, z: Size)
    requires c.Valid() && i.symbol in i.prices && z.approved && ExitSell(c, i) == None
    ensures AllWorded(BuyPlan(c, i, v, x, st, z).writes, c, i, v)
  {
    BuyInBps(c.executor, i.symbol, z, i.prices[i.symbol], i.now);
  }

  lemma GateWorded(c: CycleConfig, i: CycleInput, v: View, x: Option<ExitSignal>, st: RiskState, z: Size)
    requires c.Valid() && i.symbol in i.prices && z.approved && !i.risk.killSwitch && ExitSell(c, i) == None
    ensures AllWorded(GatePlan(c, i, v, x, st, z).writes, c, i, v)
  {
    GateRoutes(v.mode, v.lock, true, i.risk.killSwitch);
    var attempted := Ev(i, v, ExecutionAttempted, AttemptStage, Some(BUY), None);
    if v.mode == PaperAuto {
      BuyWorded(c, i, v, x, st, z);
      WordedCons(attempted, BuyPlan(c, i, v, x, st, z), c, i, v);
    }
  }

  lemma SizeWorded(c: CycleConfig, i: CycleInput, v: View, x: Option<ExitSignal>)
    requires c.Valid() && v.candidate != None && v.hint != Reject && v.score >= 50 && ExitSell(c, i) == None
    requires !RiskRaises(i.risk) && Approves(i.risk, ProfileOf(i.risk.equity))
    ensures AllWorded(RiskPlan(c, i, v, x, v.candidate.value).writes, c, i, v)
  {
    var k, p := v.candidate.value, ProfileOf(i.risk.equity);
    ApprovedPlan(c, i, v, x, k);
    var d := PreTrade(i.risk, p).value;
    var z := SizeFor(c, i, k, p, d);
    if i.symbol in i.prices && z.approved {
      GateWorded(c, i, v, x, d.state, z);
      WordedCons(Ev(i, v, PositionSized, SizeStage, Some(BUY), None), GatePlan(c, i, v, x, d.state, z), c, i, v);
    }
  }

  lemma RaisedWorded(c: CycleConfig, i: CycleInput, v: View, x: Option<ExitSignal>, k: Candidate)
    requires c.Valid() && RiskRaises(i.risk)
    ensures AllWorded(RiskPlan(c, i, v, x, k).writes, c, i, v)
  {
    RaisesIff(i.risk);
    assert RiskPlan(c, i, v, x, k).writes == [];
  }

  lemma RiskWorded(c: CycleConfig, i: CycleInput, v: View, x: Option<ExitSignal>)
    requires c.Valid() && v.candidate != None && v.hint != Reject && v.score >= 50 && ExitSell(c, i) == None
    ensures AllWorded(RiskPlan(c, i, v, x, v.candidate.value).writes, c, i, v)
  {
    var k := v.candidate.value;
    if RiskRaises(i.risk) { RaisedWorded(c, i, v, x, k); }
    else if Approves(i.risk, ProfileOf(i.risk.equity)) { SizeWorded(c, i, v, x); }
    else { RefusedRows(c, i, v, x, k); }
  }

  lemma EntryWorded(c: CycleConfig, i: CycleInput, v: View, x: Option<ExitSignal>)
    requires c.Valid() && ExitSell(c, i) == None
    ensures AllWorded(EntryPlan(c, i, v, x).writes, c, i, v)
  {
    if v.candidate != None {
      var k := v.candidate.value;
      if v.hint != Reject && v.score >= 50 {
        RiskWorded(c, i, v, x);
        WordedCons(Ev(i, v, RiskChecked, RiskStage, Some(BUY), Some("ai_approved")), RiskPlan(c, i, v, x, k), c, i, v);
      }
      WordedCons(Ev(i, v, SignalGenerated, SignalStage, Some(BUY), None), AiPlan(c, i, v, x, k), c, i, v);
    }
  }

  /** Every row of every cycle says what its kind, the approvals and the exit rules call for. */
  lemma CycleWorded(c: CycleConfig, i: CycleInput, v: View)
    requires c.Valid()
    ensures AllWorded(CyclePlan(c, i, v).writes, c, i, v)
  {
    var s, rest := ScanExit(c, i, v), AfterScan(c, i, v);
    ScanWorded(c, i, v);
    ScanShape(c, i, v);
    if !s.executed { EntryWorded(c, i, v, s.signal); }
    WordedCons(Ev(i, v, CycleStarted, StartedStage, None, None), Before(s.writes, rest), c, i, v);
  }
}
