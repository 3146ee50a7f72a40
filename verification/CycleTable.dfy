/** What a cycle ends with and says, as one table over its input and what it reads. */
module CycleTable {
  import opened Prelude
  import opened Ledger
  import opened Risk
  import opened PaperExecution
  import opened Exits
  import opened Gate
  import opened TradingLog
  import opened PaperCycle
  import opened CycleTrace

  // ----- the kinds of the events, in order -----

  function KindsOf(ws: seq<Write>): seq<Kind> {
    if |ws| == 0 then []
    else KindsOf(ws[..|ws| - 1]) + (if ws[|ws| - 1].EventRow? then [ws[|ws| - 1].event.kind] else [])
  }

  lemma {:induction false} KindsAppend(a: seq<Write>, b: seq<Write>)
    ensures KindsOf(a + b) == KindsOf(a) + KindsOf(b)
  {
    if |b| == 0 {
      assert a + b == a;
    } else {
      KindsAppend(a, b[..|b| - 1]);
      assert (a + b)[..|a + b| - 1] == a + b[..|b| - 1];
    }
  }

  lemma KindOfOne(w: Write)
    ensures KindsOf([w]) == if w.EventRow? then [w.event.kind] else []
  {
    assert [w][..0] == [];
  }

  lemma KindsCons(w: Write, ws: seq<Write>)
    ensures KindsOf([w] + ws) == (if w.EventRow? then [w.event.kind] else []) + KindsOf(ws)
  {
    KindsAppend([w], ws);
    KindOfOne(w);
  }

  /** Every event names the symbol of the cycle and the mode it read, and has a status exactly if it finishes. */
  ghost predicate Speaks(ws: seq<Write>, i: CycleInput, v: View) {
    forall n :: 0 <= n < |ws| && ws[n].EventRow? ==>
      ws[n].event.symbol == i.symbol && ws[n].event.mode == v.mode
      && (ws[n].event.status != None <==> ws[n].event.kind == CycleFinished)
  }

  /** How a plan ends, and the kinds of its events; None for an exception. */
  ghost predicate Shaped(p: Plan, i: CycleInput, v: View, status: Option<Status>, kinds: seq<Kind>) {
    && KindsOf(p.writes) == kinds && Speaks(p.writes, i, v)
    && status == (if p.end.Ok? then Some(p.end.value.status) else None)
  }

  lemma ShapedCons(w: Write, p: Plan, i: CycleInput, v: View, status: Option<Status>, kinds: seq<Kind>)
    requires Shaped(p, i, v, status, kinds) && Speaks([w], i, v)
    ensures Shaped(Before([w], p), i, v, status, (if w.EventRow? then [w.event.kind] else []) + kinds)
  {
    KindsCons(w, p.writes);
    var ws := [w] + p.writes;
    assert [w][0] == w;
    assert forall n :: 0 < n < |ws| ==> ws[n] == p.writes[n - 1];
  }

  lemma ShapedOne(w: Write, x: CycleResult, i: CycleInput, v: View)
    requires Speaks([w], i, v) && w.EventRow?
    ensures Shaped(Plan([w], Ok(x)), i, v, Some(x.status), [w.event.kind])
  {
    KindOfOne(w);
  }

  lemma ShapedTwo(d: Write, w: Write, x: CycleResult, i: CycleInput, v: View)
    requires Speaks([d], i, v) && Speaks([w], i, v) && w.EventRow?
    ensures Shaped(Plan([d, w], Ok(x)), i, v, Some(x.status),
                   (if d.EventRow? then [d.event.kind] else []) + [w.event.kind])
  {
    ShapedOne(w, x, i, v);
    ShapedCons(d, Plan([w], Ok(x)), i, v, Some(x.status), [w.event.kind]);
    assert [d] + [w] == [d, w];
  }

  lemma ShapedThree(c: Write, d: Write, w: Write, x: CycleResult, i: CycleInput, v: View)
    requires Speaks([c], i, v) && Speaks([d], i, v) && Speaks([w], i, v) && w.EventRow?
    ensures Shaped(Plan([c, d, w], Ok(x)), i, v, Some(x.status),
                   (if c.EventRow? then [c.event.kind] else [])
                   + ((if d.EventRow? then [d.event.kind] else []) + [w.event.kind]))
  {
    ShapedTwo(d, w, x, i, v);
    ShapedCons(c, Plan([d, w], Ok(x)), i, v, Some(x.status),
               (if d.EventRow? then [d.event.kind] else []) + [w.event.kind]);
    assert [c] + [d, w] == [c, d, w];
  }

  // ----- the table -----

  /** Pre-trade raises: there is no profile for the equity, or no opening equity to compare it with. */
  predicate RiskRaises(risk: Snapshot) {
    risk.equity < 0.0 || (!risk.killSwitch && risk.dataFresh && risk.dayStart <= 0.0)
  }

  /** What an entry ends with, row by row. */
  ghost function EntryStatus(c: CycleConfig, i: CycleInput, v: View): Option<Status> {
    if v.candidate == None then Some(StatusNoSignal)
    else if v.hint == Reject || v.score < 50 then Some(StatusAiRejected)
    else if RiskRaises(i.risk) then None
    else if !Approves(i.risk, ProfileOf(i.risk.equity)) then Some(StatusRiskRejected)
    else if i.symbol !in i.prices then Some(StatusSizeRejected)
    else if !Sizes(v.candidate.value, i.risk, ProfileOf(i.risk.equity), c.minNotional) then Some(StatusSizeRejected)
    else SizedStatus(v, i.prices[i.symbol])
  }

  /** What a sized entry ends with; the kill switch is off by then. */
  function SizedStatus(v: View, price: real): Option<Status> {
    if v.mode == Paused || v.mode == LiveSmallAuto || (v.mode == LiveShadow && v.lock.enabled)
    then Some(StatusGateBlocked)
    else if v.mode == LiveShadow then Some(StatusShadowRecorded)
    else if price > 0.0 then Some(StatusExecuted)
    else Some(StatusNoExecution)
  }

  /** The events of an entry, by how it ends; `priced` says whether the symbol has a market price. */
  function EntryKinds(status: Option<Status>, priced: bool): seq<Kind> {
    match status
    case None => [SignalGenerated, RiskChecked]
    case Some(StatusNoSignal) => [CycleFinished]
    case Some(StatusAiRejected) => [SignalGenerated, RiskRejected, CycleFinished]
    case Some(StatusRiskRejected) => [SignalGenerated, RiskChecked, RiskRejected, CycleFinished]
    case Some(StatusSizeRejected) =>
      if priced then [SignalGenerated, RiskChecked, RiskRejected, CycleFinished]
      else [SignalGenerated, RiskChecked, CycleFinished]
    case Some(x) => [SignalGenerated, RiskChecked, PositionSized, ExecutionAttempted] + AttemptKinds(x)
  }

  function AttemptKinds(status: Status): seq<Kind> {
    match status
    case StatusGateBlocked => [ExecutionGateBlocked, CycleFinished]
    case StatusShadowRecorded => [ShadowRecorded, CycleFinished]
    case StatusExecuted => [OrderExecuted, CycleFinished]
    case _ => [ExecutionResult, CycleFinished]
  }

  lemma FilledShape(c: CycleConfig, i: CycleInput, v: View, x: Option<ExitSignal>, st: RiskState, z: Size)
    requires c.Valid() && i.symbol in i.prices && z.approved && i.prices[i.symbol] > 0.0
    ensures Shaped(BuyPlan(c, i, v, x, st, z), i, v, Some(StatusExecuted), AttemptKinds(StatusExecuted))
  {
    var p := BuyPlan(c, i, v, x, st, z);
    BuyInBps(c.executor, i.symbol, z, i.prices[i.symbol], i.now);
    ShapedThree(p.writes[0], p.writes[1], p.writes[2], p.end.value, i, v);
    assert p.writes == [p.writes[0], p.writes[1], p.writes[2]];
  }

  lemma UnfilledShape(c: CycleConfig, i: CycleInput, v: View, x: Option<ExitSignal>, st: RiskState, z: Size)
    requires c.Valid() && i.symbol in i.prices && z.approved && i.prices[i.symbol] <= 0.0
    ensures Shaped(BuyPlan(c, i, v, x, st, z), i, v, Some(StatusNoExecution), AttemptKinds(StatusNoExecution))
  {
    var p := BuyPlan(c, i, v, x, st, z);
    BuyInBps(c.executor, i.symbol, z, i.prices[i.symbol], i.now);
    ShapedTwo(p.writes[0], p.writes[1], p.end.value, i, v);
    assert p.writes == [p.writes[0], p.writes[1]];
  }

  lemma BuyShape(c: CycleConfig, i: CycleInput, v: View, x: Option<ExitSignal>, st: RiskState, z: Size)
    requires c.Valid() && i.symbol in i.prices && z.approved
    ensures var status := if i.prices[i.symbol] > 0.0 then StatusExecuted else StatusNoExecution;
            Shaped(BuyPlan(c, i, v, x, st, z), i, v, Some(status), AttemptKinds(status))
  {
    if i.prices[i.symbol] > 0.0 { FilledShape(c, i, v, x, st, z); } else { UnfilledShape(c, i, v, x, st, z); }
  }

  lemma BlockedShape(c: CycleConfig, i: CycleInput, v: View, x: Option<ExitSignal>, st: RiskState, z: Size)
    requires c.Valid() && i.symbol in i.prices && !i.risk.killSwitch
    requires v.mode == Paused || v.mode == LiveSmallAuto || (v.mode == LiveShadow && v.lock.enabled)
    ensures Shaped(GatePlan(c, i, v, x, st, z), i, v, Some(StatusGateBlocked),
                   [ExecutionAttempted] + AttemptKinds(StatusGateBlocked))
  {
    var p := GatePlan(c, i, v, x, st, z);
    GateRoutes(v.mode, v.lock, true, i.risk.killSwitch);
    ShapedThree(p.writes[0], p.writes[1], p.writes[2], p.end.value, i, v);
    assert p.writes == [p.writes[0], p.writes[1], p.writes[2]];
  }

  lemma ShadowShape(c: CycleConfig, i: CycleInput, v: View, x: Option<ExitSignal>, st: RiskState, z: Size)
    requires c.Valid() && i.symbol in i.prices && !i.risk.killSwitch && v.mode == LiveShadow && !v.lock.enabled
    ensures Shaped(GatePlan(c, i, v, x, st, z), i, v, Some(StatusShadowRecorded),
                   [ExecutionAttempted] + AttemptKinds(StatusShadowRecorded))
  {
    var p := GatePlan(c, i, v, x, st, z);
    GateRoutes(v.mode, v.lock, true, i.risk.killSwitch);
    var w := p.writes;
    ShapedThree(w[1], w[2], w[3], p.end.value, i, v);
    ShapedCons(w[0], Plan([w[1], w[2], w[3]], p.end), i, v, Some(StatusShadowRecorded),
               AttemptKinds(StatusShadowRecorded));
    assert [w[0]] + [w[1], w[2], w[3]] == w;
  }

  lemma GateShape(c: CycleConfig, i: CycleInput, v: View, x: Option<ExitSignal>, st: RiskState, z: Size)
    requires c.Valid() && i.symbol in i.prices && z.approved && !i.risk.killSwitch
    ensures var status := SizedStatus(v, i.prices[i.symbol]);
            Shaped(GatePlan(c, i, v, x, st, z), i, v, status, [ExecutionAttempted] + AttemptKinds(status.value))
  {
    if v.mode == Paused || v.mode == LiveSmallAuto || (v.mode == LiveShadow && v.lock.enabled) {
      BlockedShape(c, i, v, x, st, z);
    } else if v.mode == LiveShadow {
      ShadowShape(c, i, v, x, st, z);
    } else {
      GateRoutes(v.mode, v.lock, true, i.risk.killSwitch);
      BuyShape(c, i, v, x, st, z);
      ShapedCons(Ev(i, v, ExecutionAttempted, AttemptStage, Some(BUY), None), BuyPlan(c, i, v, x, st, z), i, v,
                 SizedStatus(v, i.prices[i.symbol]), AttemptKinds(SizedStatus(v, i.prices[i.symbol]).value));
    }
  }

  /** What a size check must give for the rows after it. */
  lemma SizeShape(c: CycleConfig, i: CycleInput, v: View, x: Option<ExitSignal>, k: Candidate, p: RiskProfile,
                  d: Decision)
    requires c.Valid() && !i.risk.killSwitch
    ensures var z := SizeFor(c, i, k, p, d);
            var plan := SizePlan(c, i, v, x, k, p, d);
            if i.symbol !in i.prices then Shaped(plan, i, v, Some(StatusSizeRejected), [CycleFinished])
            else if !z.approved then Shaped(plan, i, v, Some(StatusSizeRejected), [RiskRejected, CycleFinished])
            else
              var status := SizedStatus(v, i.prices[i.symbol]);
              Shaped(plan, i, v, status, [PositionSized] + ([ExecutionAttempted] + AttemptKinds(status.value)))
  {
    var z, plan := SizeFor(c, i, k, p, d), SizePlan(c, i, v, x, k, p, d);
    if i.symbol !in i.prices {
      ShapedOne(plan.writes[0], plan.end.value, i, v);
      assert plan.writes == [plan.writes[0]];
    } else if !z.approved {
      ShapedTwo(plan.writes[0], plan.writes[1], plan.end.value, i, v);
      assert plan.writes == [plan.writes[0], plan.writes[1]];
    } else {
      var kinds := [ExecutionAttempted] + AttemptKinds(SizedStatus(v, i.prices[i.symbol]).value);
      GateShape(c, i, v, x, d.state, z);
      ShapedCons(Ev(i, v, PositionSized, SizeStage, Some(BUY), None), GatePlan(c, i, v, x, d.state, z), i, v,
                 SizedStatus(v, i.prices[i.symbol]), kinds);
    }
  }

  lemma RaisesIff(risk: Snapshot)
    ensures RiskRaises(risk)
       <==> SelectRiskProfile(risk.equity, DEFAULT_PROFILES).Err?
            || PreTrade(risk, SelectRiskProfile(risk.equity, DEFAULT_PROFILES).value).Err?
  {
    SelectedProfile(risk.equity, DEFAULT_PROFILES);
    if risk.equity >= 0.0 { RefusalIs(risk, ProfileOf(risk.equity)); }
  }

  lemma RaisedShape(c: CycleConfig, i: CycleInput, v: View, x: Option<ExitSignal>, k: Candidate)
    requires c.Valid() && RiskRaises(i.risk)
    ensures Shaped(RiskPlan(c, i, v, x, k), i, v, None, [])
  {
    RaisesIff(i.risk);
  }

  lemma RefusedRows(c: CycleConfig, i: CycleInput, v: View, x: Option<ExitSignal>, k: Candidate)
    requires c.Valid() && !RiskRaises(i.risk) && !Approves(i.risk, ProfileOf(i.risk.equity))
    ensures RiskPlan(c, i, v, x, k).writes
         == [Ev(i, v, RiskRejected, RiskStage, Some(BUY), Some("risk_rejected")),
             Fin(i, v, StatusRiskRejected, RiskStage, Some(BUY), Some("risk_rejected"))]
    ensures RiskPlan(c, i, v, x, k).end.Ok? && RiskPlan(c, i, v, x, k).end.value.status == StatusRiskRejected
  {
    RaisesIff(i.risk);
    BuiltInOrder(i.risk.equity);
    ApprovedIff(i.risk, ProfileOf(i.risk.equity));
  }

  lemma RefusedShape(c: CycleConfig, i: CycleInput, v: View, x: Option<ExitSignal>, k: Candidate)
    requires c.Valid() && !RiskRaises(i.risk) && !Approves(i.risk, ProfileOf(i.risk.equity))
    ensures Shaped(RiskPlan(c, i, v, x, k), i, v, Some(StatusRiskRejected), [RiskRejected, CycleFinished])
  {
    RefusedRows(c, i, v, x, k);
    var p := RiskPlan(c, i, v, x, k);
    ShapedTwo(p.writes[0], p.writes[1], p.end.value, i, v);
  }

  lemma ApprovedPlan(c: CycleConfig, i: CycleInput, v: View, x: Option<ExitSignal>, k: Candidate)
    requires c.Valid() && !RiskRaises(i.risk) && Approves(i.risk, ProfileOf(i.risk.equity))
    ensures var p := ProfileOf(i.risk.equity);
            PreTrade(i.risk, p).Ok?
            && RiskPlan(c, i, v, x, k) == SizePlan(c, i, v, x, k, p, PreTrade(i.risk, p).value)
            && (SizeFor(c, i, k, p, PreTrade(i.risk, p).value).approved <==> Sizes(k, i.risk, p, c.minNotional))
  {
    RaisesIff(i.risk);
    BuiltInOrder(i.risk.equity);
    ApprovedIff(i.risk, ProfileOf(i.risk.equity));
    SizesIff(k, i.risk, ProfileOf(i.risk.equity), c.minNotional);
  }

  /** The events from the risk checks on. */
  function RiskKinds(status: Option<Status>, priced: bool): seq<Kind> {
    match status
    case None => []
    case Some(StatusRiskRejected) => [RiskRejected, CycleFinished]
    case Some(StatusSizeRejected) => if priced then [RiskRejected, CycleFinished] else [CycleFinished]
    case Some(x) => [PositionSized, ExecutionAttempted] + AttemptKinds(x)
  }

  lemma SizedIsOne(v: View, price: real)
    ensures SizedStatus(v, price) in {Some(StatusGateBlocked), Some(StatusShadowRecorded), Some(StatusExecuted),
                                      Some(StatusNoExecution)}
  {}

  lemma RiskShape(c: CycleConfig, i: CycleInput, v: View, x: Option<ExitSignal>)
    requires c.Valid() && v.candidate != None && v.hint != Reject && v.score >= 50
    ensures var status := EntryStatus(c, i, v);
            Shaped(RiskPlan(c, i, v, x, v.candidate.value), i, v, status, RiskKinds(status, i.symbol in i.prices))
  {
    var k := v.candidate.value;
    if RiskRaises(i.risk) {
      RaisedShape(c, i, v, x, k);
    } else if !Approves(i.risk, ProfileOf(i.risk.equity)) {
      RefusedShape(c, i, v, x, k);
    } else {
      ApprovedShape(c, i, v, x);
    }
  }

  lemma ApprovedShape(c: CycleConfig, i: CycleInput, v: View, x: Option<ExitSignal>)
    requires c.Valid() && v.candidate != None && v.hint != Reject && v.score >= 50
    requires !RiskRaises(i.risk) && Approves(i.risk, ProfileOf(i.risk.equity))
    ensures var status := EntryStatus(c, i, v);
            Shaped(RiskPlan(c, i, v, x, v.candidate.value), i, v, status, RiskKinds(status, i.symbol in i.prices))
  {
    var k, p := v.candidate.value, ProfileOf(i.risk.equity);
    ApprovedPlan(c, i, v, x, k);
    SizeShape(c, i, v, x, k, p, PreTrade(i.risk, p).value);
    if i.symbol in i.prices { SizedLine(v, i.prices[i.symbol]); }
  }

  lemma SizedLine(v: View, price: real)
    ensures var status := SizedStatus(v, price);
            RiskKinds(status, true) == [PositionSized] + ([ExecutionAttempted] + AttemptKinds(status.value))
  {}

  lemma KindsLine(status: Option<Status>, priced: bool)
    requires status !in {Some(StatusNoSignal), Some(StatusAiRejected)}
    ensures EntryKinds(status, priced) == [SignalGenerated] + ([RiskChecked] + RiskKinds(status, priced))
  {}

  lemma RejectedShape(c: CycleConfig, i: CycleInput, v: View, x: Option<ExitSignal>)
    requires c.Valid() && v.candidate != None && (v.hint == Reject || v.score < 50)
    ensures Shaped(EntryPlan(c, i, v, x), i, v, Some(StatusAiRejected),
                   EntryKinds(Some(StatusAiRejected), i.symbol in i.prices))
  {
    var p := EntryPlan(c, i, v, x);
    ShapedThree(p.writes[0], p.writes[1], p.writes[2], p.end.value, i, v);
    assert p.writes == [p.writes[0], p.writes[1], p.writes[2]];
  }

  lemma CheckedShape(c: CycleConfig, i: CycleInput, v: View, x: Option<ExitSignal>)
    requires c.Valid() && v.candidate != None && v.hint != Reject && v.score >= 50
    ensures var status := EntryStatus(c, i, v);
            Shaped(EntryPlan(c, i, v, x), i, v, status, EntryKinds(status, i.symbol in i.prices))
  {
    var status, k := EntryStatus(c, i, v), v.candidate.value;
    var kinds := RiskKinds(status, i.symbol in i.prices);
    RiskShape(c, i, v, x);
    ShapedCons(Ev(i, v, RiskChecked, RiskStage, Some(BUY), Some("ai_approved")), RiskPlan(c, i, v, x, k), i, v,
               status, kinds);
    ShapedCons(Ev(i, v, SignalGenerated, SignalStage, Some(BUY), None), AiPlan(c, i, v, x, k), i, v, status,
               [RiskChecked] + kinds);
    EntryLine(c, i, v);
    KindsLine(status, i.symbol in i.prices);
  }

  lemma EntryShape(c: CycleConfig, i: CycleInput, v: View, x: Option<ExitSignal>)
    requires c.Valid()
    ensures var status := EntryStatus(c, i, v);
            Shaped(EntryPlan(c, i, v, x), i, v, status, EntryKinds(status, i.symbol in i.prices))
  {
    if v.candidate == None {
      var p := EntryPlan(c, i, v, x);
      ShapedOne(p.writes[0], p.end.value, i, v);
      assert p.writes == [p.writes[0]];
    } else if v.hint == Reject || v.score < 50 {
      RejectedShape(c, i, v, x);
    } else {
      CheckedShape(c, i, v, x);
    }
  }

  lemma EntryLine(c: CycleConfig, i: CycleInput, v: View)
    requires v.candidate != None && v.hint != Reject && v.score >= 50
    ensures EntryStatus(c, i, v) !in {Some(StatusNoSignal), Some(StatusAiRejected)}
  {
    if i.symbol in i.prices { SizedIsOne(v, i.prices[i.symbol]); }
  }

  // ----- the whole cycle -----

  /** The exit decision of the cycle, if there is an engine, an open position and a price. */
  function ExitAsked(c: CycleConfig, i: CycleInput): bool {
    c.engine != None && i.position != None && i.position.value.qty > 0.0 && i.symbol in i.prices
  }

  function ExitFound(c: CycleConfig, i: CycleInput): Option<ExitSignal> {
    if !ExitAsked(c, i) then None
    else
      var p := i.position.value;
      c.engine.value.Decide(p.stop, Holding(i.symbol, p.qty, p.avg, p.openedAt.GetOr(i.now)), i.prices[i.symbol], i.now)
  }

  function ExitKinds(c: CycleConfig, i: CycleInput): seq<Kind> {
    if !ExitAsked(c, i) then []
    else if ExitFound(c, i) == None then [ExitEvaluated]
    else if ExitSell(c, i) == None then [ExitSignalGenerated]
    else [ExitSignalGenerated, OrderExecuted]
  }

  lemma KindsOfThree(x: Write, y: Write, z: Write)
    requires x.EventRow? && !y.EventRow? && z.EventRow?
    ensures KindsOf([x, y, z]) == [x.event.kind, z.event.kind]
  {
    assert [x, y, z] == [x] + ([y] + [z]);
    KindsCons(x, [y] + [z]);
    KindsCons(y, [z]);
    KindOfOne(z);
  }

  lemma ScanKinds(c: CycleConfig, i: CycleInput, v: View)
    ensures KindsOf(ScanExit(c, i, v).writes) == ExitKinds(c, i)
  {
    var w := ScanExit(c, i, v).writes;
    if |w| == 1 {
      KindOfOne(w[0]);
      assert w == [w[0]];
    } else if |w| == 3 {
      KindsOfThree(w[0], w[1], w[2]);
      assert w == [w[0], w[1], w[2]];
    }
  }

  lemma ScanShape(c: CycleConfig, i: CycleInput, v: View)
    ensures KindsOf(ScanExit(c, i, v).writes) == ExitKinds(c, i) && Speaks(ScanExit(c, i, v).writes, i, v)
    ensures ScanExit(c, i, v).signal == ExitFound(c, i) && (ScanExit(c, i, v).executed <==> ExitSell(c, i) != None)
  {
    ScanKinds(c, i, v);
  }

  /** The table of a cycle. A due exit that fills ends it; otherwise the entry decides, and nothing follows the
      risk checks when they raise. */
  lemma CycleIs(c: CycleConfig, i: CycleInput, v: View)
    requires c.Valid()
    ensures var status := if ExitSell(c, i) != None then Some(StatusExitExecuted) else EntryStatus(c, i, v);
            var kinds := if ExitSell(c, i) != None then [CycleFinished] else EntryKinds(status, i.symbol in i.prices);
            Shaped(CyclePlan(c, i, v), i, v, status, [CycleStarted] + (ExitKinds(c, i) + kinds))
  {
    var s, rest := ScanExit(c, i, v), AfterScan(c, i, v);
    ScanShape(c, i, v);
    if s.executed {
      ShapedOne(rest.writes[0], rest.end.value, i, v);
      assert rest.writes == [rest.writes[0]];
    } else {
      EntryShape(c, i, v, s.signal);
    }
    KindsAppend(s.writes, rest.writes);
    SpeaksAppend(s.writes, rest.writes, i, v);
    var status := if ExitSell(c, i) != None then Some(StatusExitExecuted) else EntryStatus(c, i, v);
    ShapedCons(Ev(i, v, CycleStarted, StartedStage, None, None), Before(s.writes, rest), i, v, status,
               KindsOf(s.writes + rest.writes));
  }

  lemma SpeaksAppend(a: seq<Write>, b: seq<Write>, i: CycleInput, v: View)
    requires Speaks(a, i, v) && Speaks(b, i, v)
    ensures Speaks(a + b, i, v)
  {}

  /** In particular, the AI rejects exactly a candidate that it says to reject or scores below 50, unless the cycle
      has just sold. */
  lemma AiRejectsIff(c: CycleConfig, i: CycleInput, v: View)
    requires c.Valid()
    ensures var e := CyclePlan(c, i, v).end;
            e.Ok? && e.value.status == StatusAiRejected
            <==> ExitSell(c, i) == None && v.candidate != None && (v.hint == Reject || v.score < 50)
  {
    CycleIs(c, i, v);
    if v.candidate != None && v.hint != Reject && v.score >= 50 { EntryLine(c, i, v); }
  }

  // ----- what the result and the last row say -----

  /** The plan returns this result, and its last row finishes the cycle with this stage, side and reason. */
  ghost predicate Told(p: Plan, i: CycleInput, v: View, x: CycleResult, stage: Stage, side: Option<Side>,
                       reason: Option<string>)
  {
    && p.end == Ok(x) && |p.writes| > 0
    && p.writes[|p.writes| - 1]
       == EventRow(Event(CycleFinished, stage, Some(x.status), i.symbol, side, v.mode, reason))
  }

  lemma ToldBefore(ws: seq<Write>, p: Plan, i: CycleInput, v: View, x: CycleResult, stage: Stage, side: Option<Side>,
                   reason: Option<string>)
    requires Told(p, i, v, x, stage, side, reason)
    ensures Told(Before(ws, p), i, v, x, stage, side, reason)
  {
    assert (ws + p.writes)[|ws + p.writes| - 1] == p.writes[|p.writes| - 1];
  }

  /** The result of an entry that got past the AI. */
  function Reported(i: CycleInput, x: Option<ExitSignal>, status: Status, state: RiskState, reasons: seq<string>)
    : CycleResult
  {
    CycleResult(i.symbol, status, true, Some(state), status == StatusExecuted, reasons, [], x, false)
  }

  /** What a sized entry reports, and where and why it finishes. */
  ghost predicate SizedTold(p: Plan, i: CycleInput, v: View, x: Option<ExitSignal>, st: RiskState, price: real) {
    var gate := "execution_gate:" + Decide(v.mode, v.lock, true, false).reason;
    match SizedStatus(v, price).value
    case StatusGateBlocked =>
      Told(p, i, v, Reported(i, x, StatusGateBlocked, st, [gate]), AttemptStage, Some(BUY), Some(gate))
    case StatusShadowRecorded =>
      Told(p, i, v, Reported(i, x, StatusShadowRecorded, st, []), ResultStage, Some(BUY), Some("live_shadow"))
    case StatusExecuted => Told(p, i, v, Reported(i, x, StatusExecuted, st, []), ResultStage, Some(BUY), None)
    case _ => Told(p, i, v, Reported(i, x, StatusNoExecution, st, []), NoExecutionStage, Some(BUY), None)
  }

  lemma GateTold(c: CycleConfig, i: CycleInput, v: View, x: Option<ExitSignal>, st: RiskState, z: Size)
    requires c.Valid() && i.symbol in i.prices && z.approved && !i.risk.killSwitch
    ensures SizedTold(GatePlan(c, i, v, x, st, z), i, v, x, st, i.prices[i.symbol])
  {
    GateRoutes(v.mode, v.lock, true, i.risk.killSwitch);
    if v.mode == PaperAuto { BuyTold(c, i, v, x, st, z); }
  }

  lemma BuyTold(c: CycleConfig, i: CycleInput, v: View, x: Option<ExitSignal>, st: RiskState, z: Size)
    requires c.Valid() && i.symbol in i.prices && z.approved && !i.risk.killSwitch && v.mode == PaperAuto
    ensures SizedTold(GatePlan(c, i, v, x, st, z), i, v, x, st, i.prices[i.symbol])
  {
    var p, price := BuyPlan(c, i, v, x, st, z), i.prices[i.symbol];
    BuyInBps(c.executor, i.symbol, z, price, i.now);
    var attempted := Ev(i, v, ExecutionAttempted, AttemptStage, Some(BUY), None);
    if price > 0.0 {
      ToldBefore([attempted], p, i, v, Reported(i, x, StatusExecuted, st, []), ResultStage, Some(BUY), None);
    } else {
      ToldBefore([attempted], p, i, v, Reported(i, x, StatusNoExecution, st, []), NoExecutionStage, Some(BUY), None);
    }
  }

  /** What an entry reports after the risk checks have run. */
  ghost predicate RiskTold(p: Plan, c: CycleConfig, i: CycleInput, v: View, x: Option<ExitSignal>)
    requires v.candidate != None && i.risk.equity >= 0.0 && PreTrade(i.risk, ProfileOf(i.risk.equity)).Ok?
  {
    var d, k := PreTrade(i.risk, ProfileOf(i.risk.equity)).value, v.candidate.value;
    var size := if k.entry <= k.stop then "invalid_stop_distance" else "below_min_notional";
    if !Approves(i.risk, ProfileOf(i.risk.equity))
    then Told(p, i, v, Reported(i, x, StatusRiskRejected, d.state, ["risk_rejected"] + d.reasons), RiskStage, Some(BUY),
              Some("risk_rejected"))
    else if i.symbol !in i.prices
    then Told(p, i, v, Reported(i, x, StatusSizeRejected, d.state, ["missing_market_price"]), SizeStage, Some(BUY),
              Some("missing_market_price"))
    else if !Sizes(k, i.risk, ProfileOf(i.risk.equity), c.minNotional)
    then Told(p, i, v, Reported(i, x, StatusSizeRejected, d.state, ["position_size_rejected", size]), SizeStage,
              Some(BUY), Some("position_size_rejected"))
    else SizedTold(p, i, v, x, d.state, i.prices[i.symbol])
  }

  lemma SizedToldBefore(ws: seq<Write>, p: Plan, i: CycleInput, v: View, x: Option<ExitSignal>, st: RiskState,
                        price: real)
    requires SizedTold(p, i, v, x, st, price)
    ensures SizedTold(Before(ws, p), i, v, x, st, price)
  {
    var gate := "execution_gate:" + Decide(v.mode, v.lock, true, false).reason;
    SizedIsOne(v, price);
    match SizedStatus(v, price).value
    case StatusGateBlocked =>
      ToldBefore(ws, p, i, v, Reported(i, x, StatusGateBlocked, st, [gate]), AttemptStage, Some(BUY), Some(gate));
    case StatusShadowRecorded =>
      ToldBefore(ws, p, i, v, Reported(i, x, StatusShadowRecorded, st, []), ResultStage, Some(BUY),
                 Some("live_shadow"));
    case StatusExecuted =>
      ToldBefore(ws, p, i, v, Reported(i, x, StatusExecuted, st, []), ResultStage, Some(BUY), None);
    case _ =>
      ToldBefore(ws, p, i, v, Reported(i, x, StatusNoExecution, st, []), NoExecutionStage, Some(BUY), None);
  }

  lemma SizeTold(c: CycleConfig, i: CycleInput, v: View, x: Option<ExitSignal>, k: Candidate, p: RiskProfile,
                 d: Decision)
    requires c.Valid() && !i.risk.killSwitch && d.approved
    ensures var plan, z := SizePlan(c, i, v, x, k, p, d), SizeFor(c, i, k, p, d);
            var size := if k.entry <= k.stop then "invalid_stop_distance" else "below_min_notional";
            && (i.symbol !in i.prices ==>
                  Told(plan, i, v, Reported(i, x, StatusSizeRejected, d.state, ["missing_market_price"]), SizeStage,
                       Some(BUY), Some("missing_market_price")))
            && (i.symbol in i.prices && !z.approved ==>
                  Told(plan, i, v, Reported(i, x, StatusSizeRejected, d.state, ["position_size_rejected", size]),
                       SizeStage, Some(BUY), Some("position_size_rejected")))
            && (i.symbol in i.prices && z.approved ==> SizedTold(plan, i, v, x, d.state, i.prices[i.symbol]))
  {
    var z := SizeFor(c, i, k, p, d);
    SizeApprovedIff(k, d, p, i.risk.equity, c.minNotional);
    if i.symbol in i.prices && z.approved {
      GateTold(c, i, v, x, d.state, z);
      SizedToldBefore([Ev(i, v, PositionSized, SizeStage, Some(BUY), None)], GatePlan(c, i, v, x, d.state, z), i, v, x,
                      d.state, i.prices[i.symbol]);
    } else if i.symbol in i.prices {
      assert ["position_size_rejected"] + z.reasons == ["position_size_rejected", z.reasons[0]];
    }
  }

  lemma RiskPlanTold(c: CycleConfig, i: CycleInput, v: View, x: Option<ExitSignal>)
    requires c.Valid() && v.candidate != None && !RiskRaises(i.risk)
    ensures PreTrade(i.risk, ProfileOf(i.risk.equity)).Ok?
    ensures RiskTold(RiskPlan(c, i, v, x, v.candidate.value), c, i, v, x)
  {
    var k, p := v.candidate.value, ProfileOf(i.risk.equity);
    RaisesIff(i.risk);
    BuiltInOrder(i.risk.equity);
    ApprovedIff(i.risk, p);
    if Approves(i.risk, p) {
      ApprovedPlan(c, i, v, x, k);
      SizeTold(c, i, v, x, k, p, PreTrade(i.risk, p).value);
    }
  }

  lemma RiskToldBefore(ws: seq<Write>, p: Plan, c: CycleConfig, i: CycleInput, v: View, x: Option<ExitSignal>)
    requires v.candidate != None && i.risk.equity >= 0.0 && PreTrade(i.risk, ProfileOf(i.risk.equity)).Ok?
    requires RiskTold(p, c, i, v, x)
    ensures RiskTold(Before(ws, p), c, i, v, x)
  {
    if Approves(i.risk, ProfileOf(i.risk.equity)) && i.symbol in i.prices
       && Sizes(v.candidate.value, i.risk, ProfileOf(i.risk.equity), c.minNotional)
    {
      SizedToldBefore(ws, p, i, v, x, PreTrade(i.risk, ProfileOf(i.risk.equity)).value.state, i.prices[i.symbol]);
    }
    assert |p.writes| > 0 ==> (ws + p.writes)[|ws + p.writes| - 1] == p.writes[|p.writes| - 1];
  }

  /** What a cycle that does not raise reports, and where and why it finishes. */
  ghost predicate CycleTold(p: Plan, c: CycleConfig, i: CycleInput, v: View)
    requires RiskRaises(i.risk) || (i.risk.equity >= 0.0 && PreTrade(i.risk, ProfileOf(i.risk.equity)).Ok?)
  {
    var x := ExitFound(c, i);
    if ExitSell(c, i) != None
    then x != None && Told(p, i, v, CycleResult(i.symbol, StatusExitExecuted, false, None, false, [], [], x, true),
                           ResultStage, Some(SELL),
                           Some(match x.value.reason case HardStop => "hard_stop" case TakeProfit => "take_profit"
                                                     case TimeExit => "time_exit"))
    else if v.candidate == None
    then Told(p, i, v, CycleResult(i.symbol, StatusNoSignal, false, None, false, [], [], x, false), SignalStage, None,
              Some("no_candidate"))
    else if v.hint == Reject || v.score < 50
    then Told(p, i, v,
              CycleResult(i.symbol, StatusAiRejected, true, None, false, ["ai_rejected"] + v.flags, [], x, false),
              RiskStage, Some(BUY), Some("ai_rejected"))
    else RiskRaises(i.risk) || RiskTold(p, c, i, v, x)
  }

  lemma EntryTold(c: CycleConfig, i: CycleInput, v: View, x: Option<ExitSignal>)
    requires c.Valid() && v.candidate != None && v.hint != Reject && v.score >= 50 && !RiskRaises(i.risk)
    ensures PreTrade(i.risk, ProfileOf(i.risk.equity)).Ok? && RiskTold(EntryPlan(c, i, v, x), c, i, v, x)
  {
    var k := v.candidate.value;
    RiskPlanTold(c, i, v, x);
    RiskToldBefore([Ev(i, v, RiskChecked, RiskStage, Some(BUY), Some("ai_approved"))], RiskPlan(c, i, v, x, k), c, i, v,
                   x);
    RiskToldBefore([Ev(i, v, SignalGenerated, SignalStage, Some(BUY), None)], AiPlan(c, i, v, x, k), c, i, v, x);
  }

  lemma RiskRuns(i: CycleInput)
    ensures RiskRaises(i.risk) || (i.risk.equity >= 0.0 && PreTrade(i.risk, ProfileOf(i.risk.equity)).Ok?)
  {
    RaisesIff(i.risk);
  }

  /** Result and last row of every cycle, case by case. */
  lemma CycleTells(c: CycleConfig, i: CycleInput, v: View)
    requires c.Valid()
    ensures RiskRaises(i.risk) || (i.risk.equity >= 0.0 && PreTrade(i.risk, ProfileOf(i.risk.equity)).Ok?)
    ensures CycleTold(CyclePlan(c, i, v), c, i, v)
  {
    var s, rest := ScanExit(c, i, v), AfterScan(c, i, v);
    var first := [Ev(i, v, CycleStarted, StartedStage, None, None)];
    RiskRuns(i);
    ScanShape(c, i, v);
    assert first + (s.writes + rest.writes) == first + s.writes + rest.writes;
    if ExitSell(c, i) != None || v.candidate == None || v.hint == Reject || v.score < 50 {
      var all := first + (s.writes + rest.writes);
      assert all[|all| - 1] == rest.writes[|rest.writes| - 1];
    } else if !RiskRaises(i.risk) {
      EntryTold(c, i, v, s.signal);
      RiskToldBefore(first + s.writes, rest, c, i, v, s.signal);
    }
  }

  // ----- exits, BUYs and shadow executions in numbers -----

  /** A cycle sells exactly if its exit rules fire on an open, priced position and the price is positive. */
  lemma ExitSellIff(c: CycleConfig, i: CycleInput)
    requires c.Valid()
    ensures ExitSell(c, i) != None
       <==> && c.engine != None && i.position != None && i.position.value.qty > 0.0
            && i.symbol in i.prices && i.prices[i.symbol] > 0.0
            && var p, e := i.position.value, c.engine.value;
               FirstDue(if p.stop != None then p.stop else e.hardStop, p.avg + p.avg * e.takeProfitPct / 100.0, e,
                        Holding(i.symbol, p.qty, p.avg, if p.openedAt == None then i.now else p.openedAt.value),
                        i.prices[i.symbol], i.now) != None
  {
    if ExitAsked(c, i) {
      var p, e := i.position.value, c.engine.value;
      var h := Holding(i.symbol, p.qty, p.avg, p.openedAt.GetOr(i.now));
      Priority(e, p.stop, h, i.prices[i.symbol], i.now);
      if ExitFound(c, i) != None {
        FullExit(e.Rules(p.stop, p.avg), h, i.prices[i.symbol], i.now);
        SellInBps(c.executor, i.symbol, p.qty, i.prices[i.symbol], i.now);
      }
    }
  }

  /** Between these bounds, losing no more than this at the stop, and exactly that unless the upper bound is met. */
  predicate Within(n: real, least: real, cap: real, distance: real, loss: real) {
    least <= n <= cap && n * distance <= loss && (n == cap || n * distance == loss)
  }

  /** The notional of an entry: what loses the allowed loss at the stop, or the symbol cap, whichever is less. */
  ghost predicate SizedTo(n: real, c: CycleConfig, i: CycleInput, v: View)
    requires v.candidate != None && i.risk.equity >= 0.0
  {
    var k, p := v.candidate.value, ProfileOf(i.risk.equity);
    Within(n, c.minNotional, SymbolCap(i.risk.equity, p), k.entry - k.stop,
           Share(i.risk, p) * MaxLoss(i.risk.equity, p) * k.entry)
  }

  lemma SizeFits(c: CycleConfig, i: CycleInput, k: Candidate, p: RiskProfile, d: Decision, share: real)
    requires SizeFor(c, i, k, p, d).approved && d.multiplier == share
    ensures Within(SizeFor(c, i, k, p, d).notional, c.minNotional, SymbolCap(i.risk.equity, p), k.entry - k.stop,
                   share * MaxLoss(i.risk.equity, p) * k.entry)
  {
    SizeBounds(k, d, p, i.risk.equity, c.minNotional);
  }

  function EntrySize(c: CycleConfig, i: CycleInput, v: View): Size
    requires v.candidate != None && i.risk.equity >= 0.0 && PreTrade(i.risk, ProfileOf(i.risk.equity)).Ok?
  {
    SizeFor(c, i, v.candidate.value, ProfileOf(i.risk.equity), PreTrade(i.risk, ProfileOf(i.risk.equity)).value)
  }

  lemma EntryApproved(c: CycleConfig, i: CycleInput, v: View)
    requires Cleared(c, i, v)
    ensures PreTrade(i.risk, ProfileOf(i.risk.equity)).Ok? && EntrySize(c, i, v).approved
    ensures PreTrade(i.risk, ProfileOf(i.risk.equity)).value.multiplier == Share(i.risk, ProfileOf(i.risk.equity))
  {
    var p := ProfileOf(i.risk.equity);
    BuiltInOrder(i.risk.equity);
    ApprovedShare(i.risk, p);
    SizesIff(v.candidate.value, i.risk, p, c.minNotional);
  }

  lemma EntrySizedTo(c: CycleConfig, i: CycleInput, v: View)
    requires Cleared(c, i, v)
    ensures PreTrade(i.risk, ProfileOf(i.risk.equity)).Ok?
    ensures EntrySize(c, i, v).approved && SizedTo(EntrySize(c, i, v).notional, c, i, v)
  {
    EntryApproved(c, i, v);
    SizedByShare(c, i, v, PreTrade(i.risk, ProfileOf(i.risk.equity)).value);
  }

  lemma SizedByShare(c: CycleConfig, i: CycleInput, v: View, d: Decision)
    requires v.candidate != None && i.risk.equity >= 0.0
    requires SizeFor(c, i, v.candidate.value, ProfileOf(i.risk.equity), d).approved
    requires d.multiplier == Share(i.risk, ProfileOf(i.risk.equity))
    ensures SizedTo(SizeFor(c, i, v.candidate.value, ProfileOf(i.risk.equity), d).notional, c, i, v)
  {
    var p := ProfileOf(i.risk.equity);
    SizeFits(c, i, v.candidate.value, p, d, Share(i.risk, p));
  }

  lemma EntryFill(c: CycleConfig, i: CycleInput, v: View)
    requires c.Valid() && EntryBuy(c, i, v) != None && Cleared(c, i, v)
    ensures i.symbol in i.prices && PreTrade(i.risk, ProfileOf(i.risk.equity)).Ok?
    ensures EntryBuy(c, i, v)
         == Some(c.executor.ExecuteMarketBuy(i.symbol, EntrySize(c, i, v), i.prices[i.symbol], i.now).fill)
  {
    EntrySizedTo(c, i, v);
  }

  /** A BUY of this notional: fee and slippage in basis points. */
  ghost predicate CostsIn(f: Fill, notional: real, price: real, e: PaperExecutor) {
    && Gross(f) + f.fee == notional && 10000.0 * f.price == price * (10000.0 + e.slippageBps)
    && 10000.0 * f.fee == notional * e.feeBps
  }

  lemma FillCosts(e: PaperExecutor, symbol: string, z: Size, price: real, now: int)
    requires e.Valid() && z.approved && z.notional > 0.0 && e.ExecuteMarketBuy(symbol, z, price, now).Filled?
    ensures CostsIn(e.ExecuteMarketBuy(symbol, z, price, now).fill, z.notional, price, e)
  {
    BuyInBps(e, symbol, z, price, now);
  }

  lemma EntryCosts(c: CycleConfig, i: CycleInput, v: View)
    requires c.Valid() && EntryBuy(c, i, v) != None && Cleared(c, i, v)
    ensures i.symbol in i.prices && PreTrade(i.risk, ProfileOf(i.risk.equity)).Ok?
    ensures CostsIn(EntryBuy(c, i, v).value, EntrySize(c, i, v).notional, i.prices[i.symbol], c.executor)
  {
    EntryFill(c, i, v);
    EntrySizedTo(c, i, v);
    FillCosts(c.executor, i.symbol, EntrySize(c, i, v), i.prices[i.symbol], i.now);
  }

  /** A persisted BUY costs that notional, fee included, at the market price and its slippage. */
  lemma EntryBuyCosts(c: CycleConfig, i: CycleInput, v: View)
    requires c.Valid() && EntryBuy(c, i, v) != None
    ensures var f := EntryBuy(c, i, v).value;
            && v.candidate != None && i.risk.equity >= 0.0 && i.symbol in i.prices
            && SizedTo(Gross(f) + f.fee, c, i, v)
            && CostsIn(f, Gross(f) + f.fee, i.prices[i.symbol], c.executor)
  {
    EntryBuyIff(c, i, v);
    EntrySizedTo(c, i, v);
    EntryCosts(c, i, v);
  }

  function ShadowsOf(ws: seq<Write>): seq<Write> {
    if |ws| == 0 then []
    else ShadowsOf(ws[..|ws| - 1]) + (if ws[|ws| - 1].ShadowRow? then [ws[|ws| - 1]] else [])
  }

  lemma {:induction false} ShadowsAppend(a: seq<Write>, b: seq<Write>)
    ensures ShadowsOf(a + b) == ShadowsOf(a) + ShadowsOf(b)
  {
    if |b| == 0 {
      assert a + b == a;
    } else {
      ShadowsAppend(a, b[..|b| - 1]);
      assert (a + b)[..|a + b| - 1] == a + b[..|b| - 1];
    }
  }

  lemma {:induction false} NoShadows(ws: seq<Write>)
    requires forall n :: 0 <= n < |ws| ==> !ws[n].ShadowRow?
    ensures ShadowsOf(ws) == []
  {
    if |ws| != 0 { NoShadows(ws[..|ws| - 1]); }
  }

  lemma ShadowsCons(w: Write, p: Plan)
    requires !w.ShadowRow?
    ensures ShadowsOf(Before([w], p).writes) == ShadowsOf(p.writes)
  {
    ShadowsAppend([w], p.writes);
    NoShadows([w]);
  }

  lemma GateShadows(c: CycleConfig, i: CycleInput, v: View, x: Option<ExitSignal>, st: RiskState, z: Size)
    requires c.Valid() && i.symbol in i.prices && !i.risk.killSwitch
    ensures var ws := GatePlan(c, i, v, x, st, z).writes;
            if v.mode == LiveShadow && !v.lock.enabled
            then |ShadowsOf(ws)| == 1 && IsShadow(ShadowsOf(ws)[0], c, i, z.notional)
            else ShadowsOf(ws) == []
  {
    GateRoutes(v.mode, v.lock, true, i.risk.killSwitch);
    var ws := GatePlan(c, i, v, x, st, z).writes;
    if v.mode == LiveShadow && !v.lock.enabled {
      assert ws == [ws[0]] + ([ws[1]] + [ws[2], ws[3]]);
      ShadowsAppend([ws[0]], [ws[1]] + [ws[2], ws[3]]);
      ShadowsAppend([ws[1]], [ws[2], ws[3]]);
      NoShadows([ws[0]]);
      NoShadows([ws[2], ws[3]]);
      assert [ws[1]][..0] == [];
    } else {
      NoShadows(ws);
    }
  }

  /** A shadow execution of this notional: at the market price, simulated with the slippage of a BUY. */
  ghost predicate IsShadow(w: Write, c: CycleConfig, i: CycleInput, notional: real)
    requires i.symbol in i.prices
  {
    && w.ShadowRow? && w.symbol == i.symbol && w.notional == notional && w.referencePrice == i.prices[i.symbol]
    && 10000.0 * w.simulatedPrice == i.prices[i.symbol] * (10000.0 + c.executor.slippageBps)
  }

  lemma RiskShadows(c: CycleConfig, i: CycleInput, v: View, x: Option<ExitSignal>)
    requires c.Valid() && v.candidate != None && v.hint != Reject && v.score >= 50
    ensures var ws := RiskPlan(c, i, v, x, v.candidate.value).writes;
            if EntryStatus(c, i, v) == Some(StatusShadowRecorded)
            then Cleared(c, i, v) && PreTrade(i.risk, ProfileOf(i.risk.equity)).Ok? && i.symbol in i.prices
                 && |ShadowsOf(ws)| == 1 && IsShadow(ShadowsOf(ws)[0], c, i, EntrySize(c, i, v).notional)
            else ShadowsOf(ws) == []
  {
    var k, p := v.candidate.value, ProfileOfAny(i);
    RaisesIff(i.risk);
    if RiskRaises(i.risk) {
      NoShadows(RiskPlan(c, i, v, x, k).writes);
    } else if !Approves(i.risk, p) {
      BuiltInOrder(i.risk.equity);
      ApprovedIff(i.risk, p);
      NoShadows(RiskPlan(c, i, v, x, k).writes);
    } else {
      SizedShadows(c, i, v, x);
    }
  }

  ghost function ProfileOfAny(i: CycleInput): RiskProfile {
    if i.risk.equity >= 0.0 then ProfileOf(i.risk.equity) else DEFAULT_PROFILES[0]
  }

  lemma SizedShadows(c: CycleConfig, i: CycleInput, v: View, x: Option<ExitSignal>)
    requires c.Valid() && v.candidate != None && v.hint != Reject && v.score >= 50
    requires !RiskRaises(i.risk) && Approves(i.risk, ProfileOf(i.risk.equity))
    ensures var ws := RiskPlan(c, i, v, x, v.candidate.value).writes;
            if EntryStatus(c, i, v) == Some(StatusShadowRecorded)
            then Cleared(c, i, v) && PreTrade(i.risk, ProfileOf(i.risk.equity)).Ok? && i.symbol in i.prices
                 && |ShadowsOf(ws)| == 1 && IsShadow(ShadowsOf(ws)[0], c, i, EntrySize(c, i, v).notional)
            else ShadowsOf(ws) == []
  {
    var k, p := v.candidate.value, ProfileOf(i.risk.equity);
    ApprovedPlan(c, i, v, x, k);
    var d := PreTrade(i.risk, p).value;
    var z := SizeFor(c, i, k, p, d);
    if i.symbol in i.prices && z.approved {
      GateShadows(c, i, v, x, d.state, z);
      ShadowsCons(Ev(i, v, PositionSized, SizeStage, Some(BUY), None), GatePlan(c, i, v, x, d.state, z));
    } else {
      NoShadows(RiskPlan(c, i, v, x, k).writes);
    }
  }

  /** These rows hold one shadow execution, of a notional of the right size, exactly if the entry ends in that. */
  ghost predicate Shadowed(shadows: seq<Write>, c: CycleConfig, i: CycleInput, v: View) {
    if EntryStatus(c, i, v) == Some(StatusShadowRecorded)
    then |shadows| == 1 && i.symbol in i.prices && v.candidate != None && i.risk.equity >= 0.0
         && shadows[0].ShadowRow? && IsShadow(shadows[0], c, i, shadows[0].notional)
         && SizedTo(shadows[0].notional, c, i, v)
    else shadows == []
  }

  lemma EntryShadows(c: CycleConfig, i: CycleInput, v: View, x: Option<ExitSignal>)
    requires c.Valid()
    ensures Shadowed(ShadowsOf(EntryPlan(c, i, v, x).writes), c, i, v)
  {
    if v.candidate == None || v.hint == Reject || v.score < 50 {
      NoShadows(EntryPlan(c, i, v, x).writes);
    } else {
      var k := v.candidate.value;
      RiskShadows(c, i, v, x);
      ShadowsCons(Ev(i, v, RiskChecked, RiskStage, Some(BUY), Some("ai_approved")), RiskPlan(c, i, v, x, k));
      ShadowsCons(Ev(i, v, SignalGenerated, SignalStage, Some(BUY), None), AiPlan(c, i, v, x, k));
      if EntryStatus(c, i, v) == Some(StatusShadowRecorded) { EntrySizedTo(c, i, v); }
    }
  }

  /** A cycle that does not sell records one shadow execution, of the notional of its size, exactly if it ends in
      that status, and otherwise none. */
  lemma CycleShadows(c: CycleConfig, i: CycleInput, v: View)
    requires c.Valid()
    ensures var shadows := ShadowsOf(CyclePlan(c, i, v).writes);
            if ExitSell(c, i) != None then shadows == [] else Shadowed(shadows, c, i, v)
  {
    var s, rest := ScanExit(c, i, v), AfterScan(c, i, v);
    ScanShape(c, i, v);
    ShadowsCons(Ev(i, v, CycleStarted, StartedStage, None, None), Before(s.writes, rest));
    ShadowsAppend(s.writes, rest.writes);
    NoShadows(s.writes);
    if s.executed { NoShadows(rest.writes); } else { EntryShadows(c, i, v, s.signal); }
  }

  // ----- the ids a cycle returns -----

  lemma {:induction false} KindsCount(ws: seq<Write>)
    requires forall n :: 0 <= n < |ws| ==> CycleRow(ws[n])
    ensures EventCount(ws) == |KindsOf(ws)|
  {
    if |ws| != 0 { KindsCount(ws[..|ws| - 1]); }
  }

  /** A cycle collects the id of a row if and only if the row starts or finishes the cycle, signals, executes, or
      records a shadow execution. */
  lemma {:induction false} CollectedIff(n: nat, ws: seq<Write>, k: nat)
    requires (forall m :: 0 <= m < |ws| ==> CycleRow(ws[m])) && k < |KindsOf(ws)|
    ensures n + k + 1 in TrackedIds(n, ws)
       <==> KindsOf(ws)[k] in {CycleStarted, SignalGenerated, ExitSignalGenerated, OrderExecuted, ShadowRecorded,
                               CycleFinished}
  {
    var front := ws[..|ws| - 1];
    KindsCount(front);
    TrackedIncrease(n, front);
    if k < |KindsOf(front)| {
      CollectedIff(n, front, k);
    }
  }

  /** The ids of a cycle, given the kinds of its rows: those of these six kinds, and no others. */
  lemma CycleIds(c: CycleConfig, i: CycleInput, v: View, n: nat, k: nat)
    requires c.Valid() && k < |KindsOf(CyclePlan(c, i, v).writes)|
    ensures var ws := CyclePlan(c, i, v).writes;
            n + k + 1 in TrackedIds(n, ws)
            <==> KindsOf(ws)[k] in {CycleStarted, SignalGenerated, ExitSignalGenerated, OrderExecuted, ShadowRecorded,
                                    CycleFinished}
  {
    CycleTrail(c, i, v);
    CollectedIff(n, CyclePlan(c, i, v).writes, k);
  }
}
