/** What every paper cycle leaves behind: the shape of its event trail and the one fill it may persist. */
module CycleTrace {
  import opened Prelude
  import opened Ledger
  import opened Risk
  import opened PaperExecution
  import opened Exits
  import opened Gate
  import opened TradingLog
  import opened PaperCycle

  // ----- the event trail -----

  predicate IsKind(w: Write, k: Kind) { w.EventRow? && w.event.kind == k }

  ghost predicate StagesOrdered(ws: seq<Write>) {
    forall i, j :: 0 <= i < j < |ws| && ws[i].EventRow? && ws[j].EventRow?
                   ==> Rank(ws[i].event.stage) <= Rank(ws[j].event.stage)
  }

  ghost predicate FromRank(ws: seq<Write>, r: nat) {
    forall i :: 0 <= i < |ws| && ws[i].EventRow? ==> r <= Rank(ws[i].event.stage)
  }

  /** cycle_finished appears once, last, with the result's status; or never, when the cycle raised. */
  ghost predicate FinishesOnce(p: Plan) {
    match p.end
    case Ok(x) =>
      && |p.writes| > 0
      && IsKind(p.writes[|p.writes| - 1], CycleFinished)
      && p.writes[|p.writes| - 1].event.status == Some(x.status)
      && forall j :: 0 <= j < |p.writes| - 1 ==> !IsKind(p.writes[j], CycleFinished)
    case Err(_) => forall j :: 0 <= j < |p.writes| ==> !IsKind(p.writes[j], CycleFinished)
  }

  ghost predicate Tail(p: Plan, r: nat) {
    && (forall j :: 0 <= j < |p.writes| ==> CycleRow(p.writes[j]))
    && StagesOrdered(p.writes)
    && FromRank(p.writes, r)
    && FinishesOnce(p)
    && forall j :: 0 <= j < |p.writes| ==> !IsKind(p.writes[j], CycleStarted)
  }

  lemma TailCons(e: Write, p: Plan, r0: nat, r: nat)
    requires Tail(p, r) && r0 <= r
    requires !IsKind(e, CycleStarted) && !IsKind(e, CycleFinished) && CycleRow(e)
    requires e.EventRow? ==> r0 <= Rank(e.event.stage) <= r
    ensures Tail(Before([e], p), r0)
  {
    var ws := [e] + p.writes;
    assert forall j :: 0 < j < |ws| ==> ws[j] == p.writes[j - 1];
    assert |p.writes| > 0 ==> ws[|ws| - 1] == p.writes[|p.writes| - 1];
  }

  // Plans that end the cycle within a few rows.

  predicate Middle(e: Write, lo: nat, hi: nat) {
    && !IsKind(e, CycleStarted) && !IsKind(e, CycleFinished) && CycleRow(e) && lo <= hi
    && (e.EventRow? ==> lo <= Rank(e.event.stage) <= hi)
  }

  predicate Final(e: Write, x: CycleResult, lo: nat) {
    IsKind(e, CycleFinished) && e.event.status == Some(x.status) && lo <= Rank(e.event.stage)
  }

  lemma TailOne(e: Write, x: CycleResult, r: nat)
    requires Final(e, x, r)
    ensures Tail(Plan([e], Ok(x)), r)
  {}

  lemma TailTwo(d: Write, e: Write, x: CycleResult, r0: nat, r: nat)
    requires Middle(d, r0, r) && Final(e, x, r)
    ensures Tail(Plan([d, e], Ok(x)), r0)
  {
    TailOne(e, x, r);
    TailCons(d, Plan([e], Ok(x)), r0, r);
    assert [d] + [e] == [d, e];
  }

  lemma TailThree(c: Write, d: Write, e: Write, x: CycleResult, r0: nat, r1: nat, r: nat)
    requires Middle(c, r0, r1) && Middle(d, r1, r) && Final(e, x, r)
    ensures Tail(Plan([c, d, e], Ok(x)), r0)
  {
    TailTwo(d, e, x, r1, r);
    TailCons(c, Plan([d, e], Ok(x)), r0, r1);
    assert [c] + [d, e] == [c, d, e];
  }

  lemma TailFour(b: Write, c: Write, d: Write, e: Write, x: CycleResult, r0: nat, r: nat)
    requires Middle(b, r0, r) && Middle(c, r, r) && Middle(d, r, r) && Final(e, x, r)
    ensures Tail(Plan([b, c, d, e], Ok(x)), r0)
  {
    TailThree(c, d, e, x, r, r, r);
    TailCons(b, Plan([c, d, e], Ok(x)), r0, r);
    assert [b] + [c, d, e] == [b, c, d, e];
  }

  lemma BuyTail(c: CycleConfig, i: CycleInput, v: View, x: Option<ExitSignal>, st: RiskState, z: Size)
    requires c.Valid() && i.symbol in i.prices
    ensures Tail(BuyPlan(c, i, v, x, st, z), 6)
  {
    var p := BuyPlan(c, i, v, x, st, z);
    if |p.writes| == 3 {
      TailThree(p.writes[0], p.writes[1], p.writes[2], p.end.value, 6, 6, 6);
      assert p.writes == [p.writes[0], p.writes[1], p.writes[2]];
    } else {
      TailTwo(p.writes[0], p.writes[1], p.end.value, 6, 6);
      assert p.writes == [p.writes[0], p.writes[1]];
    }
  }

  lemma GateEnds(c: CycleConfig, i: CycleInput, v: View, x: Option<ExitSignal>, st: RiskState, z: Size)
    requires c.Valid() && i.symbol in i.prices
    requires var d := Decide(v.mode, v.lock, true, i.risk.killSwitch); !d.allowed || d.route == ShadowRoute
    ensures Tail(GatePlan(c, i, v, x, st, z), 5)
  {
    var p := GatePlan(c, i, v, x, st, z);
    if |p.writes| == 3 {
      TailThree(p.writes[0], p.writes[1], p.writes[2], p.end.value, 5, 5, 5);
      assert p.writes == [p.writes[0], p.writes[1], p.writes[2]];
    } else {
      TailFour(p.writes[0], p.writes[1], p.writes[2], p.writes[3], p.end.value, 5, 6);
      assert p.writes == [p.writes[0], p.writes[1], p.writes[2], p.writes[3]];
    }
  }

  lemma GateTail(c: CycleConfig, i: CycleInput, v: View, x: Option<ExitSignal>, st: RiskState, z: Size)
    requires c.Valid() && i.symbol in i.prices
    ensures Tail(GatePlan(c, i, v, x, st, z), 5)
  {
    var d := Decide(v.mode, v.lock, true, i.risk.killSwitch);
    if d.allowed && d.route != ShadowRoute {
      BuyTail(c, i, v, x, st, z);
      TailCons(Ev(i, v, ExecutionAttempted, AttemptStage, Some(BUY), None), BuyPlan(c, i, v, x, st, z), 5, 6);
    } else {
      GateEnds(c, i, v, x, st, z);
    }
  }

  lemma SizeTail(c: CycleConfig, i: CycleInput, v: View, x: Option<ExitSignal>, k: Candidate, p: RiskProfile,
                 d: Decision)
    requires c.Valid()
    ensures Tail(SizePlan(c, i, v, x, k, p, d), 4)
  {
    if i.symbol in i.prices && SizeFor(c, i, k, p, d).approved {
      var z := SizeFor(c, i, k, p, d);
      GateTail(c, i, v, x, d.state, z);
      TailCons(Ev(i, v, PositionSized, SizeStage, Some(BUY), None), GatePlan(c, i, v, x, d.state, z), 4, 5);
    }
  }

  lemma RiskTail(c: CycleConfig, i: CycleInput, v: View, x: Option<ExitSignal>, k: Candidate)
    requires c.Valid()
    ensures Tail(RiskPlan(c, i, v, x, k), 3)
  {
    var profile := SelectRiskProfile(i.risk.equity, DEFAULT_PROFILES);
    if profile.Ok? {
      var d := PreTrade(i.risk, profile.value);
      if d.Ok? && d.value.approved { SizeTail(c, i, v, x, k, profile.value, d.value); }
    }
  }

  lemma AiTail(c: CycleConfig, i: CycleInput, v: View, x: Option<ExitSignal>, k: Candidate)
    requires c.Valid()
    ensures Tail(AiPlan(c, i, v, x, k), 3)
  {
    if AiRejects(v) {
      var p := AiPlan(c, i, v, x, k);
      TailTwo(p.writes[0], p.writes[1], p.end.value, 3, 3);
      assert p.writes == [p.writes[0], p.writes[1]];
    } else {
      RiskTail(c, i, v, x, k);
      TailCons(Ev(i, v, RiskChecked, RiskStage, Some(BUY), Some("ai_approved")), RiskPlan(c, i, v, x, k), 3, 3);
    }
  }

  lemma EntryTail(c: CycleConfig, i: CycleInput, v: View, x: Option<ExitSignal>)
    requires c.Valid()
    ensures Tail(EntryPlan(c, i, v, x), 2)
  {
    if v.candidate != None {
      AiTail(c, i, v, x, v.candidate.value);
      TailCons(Ev(i, v, SignalGenerated, SignalStage, Some(BUY), None), AiPlan(c, i, v, x, v.candidate.value), 2, 3);
    }
  }

  lemma ExecutedTail(c: CycleConfig, i: CycleInput, v: View)
    requires c.Valid() && ScanExit(c, i, v).executed
    ensures Tail(Before(ScanExit(c, i, v).writes, AfterScan(c, i, v)), 1)
  {
    var w, rest := ScanExit(c, i, v).writes, AfterScan(c, i, v);
    var e := rest.writes[0];
    TailFour(w[0], w[1], w[2], e, rest.end.value, 1, 6);
    assert w + rest.writes == [w[0], w[1], w[2], e];
  }

  lemma ScanTail(c: CycleConfig, i: CycleInput, v: View)
    requires c.Valid()
    ensures Tail(Before(ScanExit(c, i, v).writes, AfterScan(c, i, v)), 1)
  {
    var s, rest := ScanExit(c, i, v), AfterScan(c, i, v);
    if s.executed {
      ExecutedTail(c, i, v);
    } else {
      EntryTail(c, i, v, s.signal);
      if |s.writes| == 0 {
        assert s.writes + rest.writes == rest.writes;
      } else {
        assert s.writes == [s.writes[0]];
        TailCons(s.writes[0], rest, 1, 2);
      }
    }
  }

  /** One cycle_started, first, and then a tail. */
  ghost predicate Trail(p: Plan) {
    && (forall j :: 0 <= j < |p.writes| ==> CycleRow(p.writes[j]))
    && |p.writes| > 0 && IsKind(p.writes[0], CycleStarted)
    && (forall j :: 0 < j < |p.writes| ==> !IsKind(p.writes[j], CycleStarted))
    && FinishesOnce(p) && StagesOrdered(p.writes)
  }

  lemma StartCons(e: Write, p: Plan)
    requires Tail(p, 1) && IsKind(e, CycleStarted) && Rank(e.event.stage) == 0
    ensures Trail(Before([e], p))
  {
    var ws := [e] + p.writes;
    assert forall j :: 0 < j < |ws| ==> ws[j] == p.writes[j - 1];
    assert |p.writes| > 0 ==> ws[|ws| - 1] == p.writes[|p.writes| - 1];
  }

  /** Every cycle: one cycle_started, first; one cycle_finished, last and with the result's status,
      unless the risk checks raise, and then none; stages never go back in pipeline order. */
  lemma CycleTrail(c: CycleConfig, i: CycleInput, v: View)
    requires c.Valid()
    ensures Trail(CyclePlan(c, i, v))
  {
    ScanTail(c, i, v);
    StartCons(Ev(i, v, CycleStarted, StartedStage, None, None), Before(ScanExit(c, i, v).writes, AfterScan(c, i, v)));
  }

  lemma OneTracked(n: nat, w: Write)
    requires Tracked(w)
    ensures TrackedIds(n, [w]) == [n + 1] && EventCount([w]) == 1
  {
    assert [w][..0] == [];
  }

  /** Rows that start and end with a tracked one give ids that start and end with theirs. */
  lemma IdsBracket(n: nat, first: Write, mid: seq<Write>, last: Write)
    requires Tracked(first) && Tracked(last)
    ensures var ws := [first] + (mid + [last]);
            && |TrackedIds(n, ws)| >= 2 && TrackedIds(n, ws)[0] == n + 1
            && TrackedIds(n, ws)[|TrackedIds(n, ws)| - 1] == n + EventCount(ws)
  {
    OneTracked(n, first);
    OneTracked(n + 1 + EventCount(mid), last);
    TrackedAppend(n, [first], mid + [last]);
    TrackedAppend(n + 1, mid, [last]);
    CountAppend([first], mid + [last]);
    CountAppend(mid, [last]);
  }

  ghost predicate IdsOf(ids: seq<nat>, log0: seq<Write>, log1: seq<Write>) {
    && |ids| >= 2 && ids[0] == EventCount(log0) + 1 && ids[|ids| - 1] == EventCount(log1)
    && (forall a, b :: 0 <= a < b < |ids| ==> ids[a] < ids[b])
    && (forall a :: 0 <= a < |ids| ==> EventCount(log0) < ids[a] <= EventCount(log1))
  }

  lemma IdsOfTrail(p: Plan, log0: seq<Write>)
    requires Trail(p) && p.end.Ok?
    ensures IdsOf(TrackedIds(EventCount(log0), p.writes), log0, log0 + p.writes)
  {
    BracketedTrail(p, EventCount(log0));
    CountAppend(log0, p.writes);
    TrackedIncrease(EventCount(log0), p.writes);
  }

  lemma EventIdsOfTrail(p: Plan, log0: seq<Write>, budget: nat, log1: seq<Write>, r: Result<CycleResult, CycleFault>)
    requires Trail(p) && Performed(log0, budget, [], p, log1, r) && r.Ok?
    ensures IdsOf(r.value.eventIds, log0, log1)
  {
    assert budget >= |p.writes| && p.end.Ok?;
    IdsOfTrail(p, log0);
    assert [] + TrackedIds(EventCount(log0), p.writes) == TrackedIds(EventCount(log0), p.writes);
  }

  /** The returned ids are those of rows this cycle wrote, in strictly increasing order, starting with
      cycle_started and ending with cycle_finished. */
  lemma EventIdsOfCycle(c: CycleConfig, i: CycleInput, v: View, log0: seq<Write>, budget: nat,
                        log1: seq<Write>, r: Result<CycleResult, CycleFault>)
    requires c.Valid() && Performed(log0, budget, [], CyclePlan(c, i, v), log1, r) && r.Ok?
    ensures IdsOf(r.value.eventIds, log0, log1)
  {
    CycleTrail(c, i, v);
    EventIdsOfTrail(CyclePlan(c, i, v), log0, budget, log1, r);
  }

  lemma BracketedTrail(p: Plan, n: nat)
    requires Trail(p) && p.end.Ok?
    ensures |TrackedIds(n, p.writes)| >= 2 && TrackedIds(n, p.writes)[0] == n + 1
    ensures TrackedIds(n, p.writes)[|TrackedIds(n, p.writes)| - 1] == n + EventCount(p.writes)
  {
    var ws := p.writes;
    var mid := ws[1..|ws| - 1];
    assert ws == [ws[0]] + (mid + [ws[|ws| - 1]]);
    IdsBracket(n, ws[0], mid, ws[|ws| - 1]);
  }

  // ----- the fill -----

  function ToSeq<T>(o: Option<T>): seq<T> { if o == None then [] else [o.value] }

  function Approvals(c: CycleConfig, i: CycleInput, v: View): Option<Size> {
    if v.candidate == None || AiRejects(v) then None
    else match SelectRiskProfile(i.risk.equity, DEFAULT_PROFILES)
      case Err(_) => None
      case Ok(p) =>
        match PreTrade(i.risk, p)
        case Err(_) => None
        case Ok(d) => if d.approved then Some(SizeFor(c, i, v.candidate.value, p, d)) else None
  }

  /** The BUY an entry would persist, with every gate it has to pass spelled out. */
  function EntryBuy(c: CycleConfig, i: CycleInput, v: View): Option<Fill>
    requires c.Valid()
  {
    var z := Approvals(c, i, v);
    if z == None || i.symbol !in i.prices || !z.value.approved then None
    else if Decide(v.mode, v.lock, true, i.risk.killSwitch).route != PaperRoute then None
    else match c.executor.ExecuteMarketBuy(i.symbol, z.value, i.prices[i.symbol], i.now)
      case Filled(_, f) => Some(f)
      case Rejected(_) => None
  }

  function ExitSell(c: CycleConfig, i: CycleInput): Option<Fill> {
    if c.engine == None || i.position == None || i.position.value.qty <= 0.0 || i.symbol !in i.prices then None
    else match ExitDecision(c.engine.value, i, i.position.value)
      case None => None
      case Some(x) =>
        match c.executor.ExecuteMarketSell(i.symbol, x.qty, i.prices[i.symbol], i.now)
        case Filled(_, f) => Some(f)
        case Rejected(_) => None
  }

  function CycleFill(c: CycleConfig, i: CycleInput, v: View): Option<Fill>
    requires c.Valid()
  {
    if ExitSell(c, i) != None then ExitSell(c, i) else EntryBuy(c, i, v)
  }

  lemma FillsCons(e: Write, p: Plan)
    requires !e.ExecutionRow?
    ensures FillsOf(Before([e], p).writes) == FillsOf(p.writes)
  {
    FillsAppend([e], p.writes);
    assert FillsOf([e]) == [];
  }

  lemma {:induction false} NoFills(ws: seq<Write>)
    requires forall j :: 0 <= j < |ws| ==> !ws[j].ExecutionRow?
    ensures FillsOf(ws) == []
  {
    if |ws| != 0 { NoFills(ws[..|ws| - 1]); }
  }

  lemma OneFill(w: Write, rest: seq<Write>)
    requires w.ExecutionRow? && forall j :: 0 <= j < |rest| ==> !rest[j].ExecutionRow?
    ensures FillsOf([w] + rest) == [w.fill]
  {
    FillsAppend([w], rest);
    NoFills(rest);
    assert [w][..0] == [];
  }

  /** The plan persists exactly these fills, and reports an executed order exactly if there is one. */
  ghost predicate Persists(p: Plan, fills: seq<Fill>) {
    FillsOf(p.writes) == fills
    && (p.end.Ok? && p.end.value.orderExecuted <==> fills != [])
    && (p.end.Ok? ==> !p.end.value.exitExecuted)
  }

  lemma BuyPersists(c: CycleConfig, i: CycleInput, v: View, x: Option<ExitSignal>, st: RiskState, z: Size)
    requires c.Valid() && i.symbol in i.prices
    ensures var e := c.executor.ExecuteMarketBuy(i.symbol, z, i.prices[i.symbol], i.now);
            Persists(BuyPlan(c, i, v, x, st, z), if e.Filled? then [e.fill] else [])
  {
    var p := BuyPlan(c, i, v, x, st, z);
    match c.executor.ExecuteMarketBuy(i.symbol, z, i.prices[i.symbol], i.now) {
      case Filled(order, fill) =>
        assert p.writes == [p.writes[0]] + [p.writes[1], p.writes[2]];
        OneFill(p.writes[0], [p.writes[1], p.writes[2]]);
      case Rejected(_) => NoFills(p.writes);
    }
  }

  lemma GatePersists(c: CycleConfig, i: CycleInput, v: View, x: Option<ExitSignal>, st: RiskState, z: Size)
    requires c.Valid() && i.symbol in i.prices
    ensures var e := c.executor.ExecuteMarketBuy(i.symbol, z, i.prices[i.symbol], i.now);
            var paper := Decide(v.mode, v.lock, true, i.risk.killSwitch).route == PaperRoute;
            Persists(GatePlan(c, i, v, x, st, z), if paper && e.Filled? then [e.fill] else [])
  {
    var d := Decide(v.mode, v.lock, true, i.risk.killSwitch);
    if d.allowed && d.route != ShadowRoute {
      BuyPersists(c, i, v, x, st, z);
      FillsCons(Ev(i, v, ExecutionAttempted, AttemptStage, Some(BUY), None), BuyPlan(c, i, v, x, st, z));
    } else {
      NoFills(GatePlan(c, i, v, x, st, z).writes);
    }
  }

  lemma RiskPersists(c: CycleConfig, i: CycleInput, v: View, x: Option<ExitSignal>)
    requires c.Valid() && v.candidate != None && !AiRejects(v)
    ensures Persists(RiskPlan(c, i, v, x, v.candidate.value), ToSeq(EntryBuy(c, i, v)))
  {
    var k := v.candidate.value;
    var z := Approvals(c, i, v);
    if z != None && i.symbol in i.prices && z.value.approved {
      var p := SelectRiskProfile(i.risk.equity, DEFAULT_PROFILES).value;
      var d := PreTrade(i.risk, p).value;
      GatePersists(c, i, v, x, d.state, z.value);
      FillsCons(Ev(i, v, PositionSized, SizeStage, Some(BUY), None), GatePlan(c, i, v, x, d.state, z.value));
    } else {
      NoFills(RiskPlan(c, i, v, x, k).writes);
    }
  }

  lemma EntryPersists(c: CycleConfig, i: CycleInput, v: View, x: Option<ExitSignal>)
    requires c.Valid()
    ensures Persists(EntryPlan(c, i, v, x), ToSeq(EntryBuy(c, i, v)))
  {
    if v.candidate == None {
      NoFills(EntryPlan(c, i, v, x).writes);
    } else {
      var k := v.candidate.value;
      if AiRejects(v) {
        NoFills(AiPlan(c, i, v, x, k).writes);
      } else {
        RiskPersists(c, i, v, x);
        FillsCons(Ev(i, v, RiskChecked, RiskStage, Some(BUY), Some("ai_approved")), RiskPlan(c, i, v, x, k));
      }
      FillsCons(Ev(i, v, SignalGenerated, SignalStage, Some(BUY), None), AiPlan(c, i, v, x, k));
    }
  }

  /** A completed cycle persists exactly one fill if it reports an executed order or an executed exit,
      and none otherwise; a raised one persists none. */
  lemma CycleFills(c: CycleConfig, i: CycleInput, v: View)
    requires c.Valid()
    ensures FillsOf(CyclePlan(c, i, v).writes) == ToSeq(CycleFill(c, i, v))
    ensures var e := CyclePlan(c, i, v).end;
            (CycleFill(c, i, v) != None <==> e.Ok? && (e.value.orderExecuted || e.value.exitExecuted))
            && (e.Ok? ==> (e.value.exitExecuted <==> ExitSell(c, i) != None))
  {
    var s, rest := ScanExit(c, i, v), AfterScan(c, i, v);
    var started := Ev(i, v, CycleStarted, StartedStage, None, None);
    FillsCons(started, Before(s.writes, rest));
    FillsAppend(s.writes, rest.writes);
    if s.executed {
      NoFills(rest.writes);
      var w := s.writes;
      assert w == [w[0]] + ([w[1]] + [w[2]]);
      FillsAppend([w[0]], [w[1]] + [w[2]]);
      NoFills([w[0]]);
      OneFill(w[1], [w[2]]);
    } else {
      NoFills(s.writes);
      EntryPersists(c, i, v, s.signal);
    }
  }

  // ----- what the fill is -----

  /** An exit sells the whole position it was shown. */
  lemma ExitSellFacts(c: CycleConfig, i: CycleInput)
    requires c.Valid() && ExitSell(c, i) != None
    ensures var f := ExitSell(c, i).value;
            f.symbol == i.symbol && f.side == SELL && f.filledAt == i.now && i.position != None
            && f.qty == i.position.value.qty > 0.0 && f.price > 0.0 && f.fee >= 0.0
            && i.symbol in i.prices && i.prices[i.symbol] > 0.0
  {
    var p := i.position.value;
    var h := Holding(i.symbol, p.qty, p.avg, p.openedAt.GetOr(i.now));
    FullExit(c.engine.value.Rules(p.stop, p.avg), h, i.prices[i.symbol], i.now);
    SellFill(c.executor, i.symbol, p.qty, i.prices[i.symbol], i.now);
  }

  /** A persisted BUY passed the AI, the pre-trade checks, sizing and the gate of the same cycle, in
      paper_auto; it costs at most the symbol cap and at least the minimum notional. */
  lemma EntryBuyFacts(c: CycleConfig, i: CycleInput, v: View)
    requires c.Valid() && EntryBuy(c, i, v) != None
    ensures var f := EntryBuy(c, i, v).value;
            var p := SelectRiskProfile(i.risk.equity, DEFAULT_PROFILES);
            && f.symbol == i.symbol && f.side == BUY && f.filledAt == i.now
            && f.qty > 0.0 && f.price > 0.0 && f.fee >= 0.0
            && v.mode == PaperAuto && !i.risk.killSwitch && v.candidate != None && v.hint != Reject && v.score >= 50
            && p.Ok? && PreTrade(i.risk, p.value).Ok? && PreTrade(i.risk, p.value).value.approved
            && c.minNotional <= Gross(f) + f.fee <= SymbolCap(i.risk.equity, p.value)
            && i.symbol in i.prices && i.prices[i.symbol] > 0.0
            && f.qty * i.prices[i.symbol] <= SymbolCap(i.risk.equity, p.value)
  {
    var p := SelectRiskProfile(i.risk.equity, DEFAULT_PROFILES).value;
    var d := PreTrade(i.risk, p).value;
    var z := SizeFor(c, i, v.candidate.value, p, d);
    SizeBounds(v.candidate.value, d, p, i.risk.equity, c.minNotional);
    GateRoutes(v.mode, v.lock, true, i.risk.killSwitch);
    BuyFill(c.executor, i.symbol, z, i.prices[i.symbol], i.now);
  }

  /** The built-in profile of the equity. */
  function ProfileOf(equity: real): RiskProfile
    requires equity >= 0.0
  {
    SelectRiskProfile(equity, DEFAULT_PROFILES).value
  }

  lemma BuiltInOrder(equity: real)
    requires equity >= 0.0
    ensures ProfileOf(equity).noNewPositionsPct <= ProfileOf(equity).globalPausePct
  {
    BuiltInProfile(equity);
  }

  /** What the candidate, the AI and the snapshot must be like for the size to be approved. */
  ghost predicate Cleared(c: CycleConfig, i: CycleInput, v: View) {
    && v.candidate != None && v.hint != Reject && v.score >= 50
    && i.risk.equity >= 0.0 && Approves(i.risk, ProfileOf(i.risk.equity))
    && Sizes(v.candidate.value, i.risk, ProfileOf(i.risk.equity), c.minNotional)
  }

  lemma ClearedIff(c: CycleConfig, i: CycleInput, v: View)
    ensures Approvals(c, i, v) != None && Approvals(c, i, v).value.approved <==> Cleared(c, i, v)
  {
    if i.risk.equity >= 0.0 && v.candidate != None {
      var p := ProfileOf(i.risk.equity);
      BuiltInOrder(i.risk.equity);
      ApprovedIff(i.risk, p);
      if Approves(i.risk, p) { SizesIff(v.candidate.value, i.risk, p, c.minNotional); }
    }
  }

  /** And conversely: the BUY is persisted exactly if there is a candidate, the AI neither rejects it nor scores it
      below 50, the snapshot and the size pass, the mode is paper_auto and the market price positive. */
  lemma EntryBuyIff(c: CycleConfig, i: CycleInput, v: View)
    requires c.Valid()
    ensures EntryBuy(c, i, v) != None
       <==> v.candidate != None && v.hint != Reject && v.score >= 50
            && i.risk.equity >= 0.0 && Approves(i.risk, ProfileOf(i.risk.equity))
            && Sizes(v.candidate.value, i.risk, ProfileOf(i.risk.equity), c.minNotional)
            && v.mode == PaperAuto && i.symbol in i.prices && i.prices[i.symbol] > 0.0
  {
    ClearedIff(c, i, v);
    GateRoutes(v.mode, v.lock, true, i.risk.killSwitch);
  }
}
