/** trading/risk: profiles, daily-loss classification, pre-trade checks and position sizing. */
module Risk {
  import opened Prelude

  datatype RiskProfile = RiskProfile(
    name: string, equityMin: real, equityMax: Option<real>,
    cautionPct: real, noNewPositionsPct: real, globalPausePct: real,
    tradeRiskPct: real, tradeRiskHardCapPct: real,
    symbolPositionPct: real, totalPositionPct: real)

  datatype RiskState = Normal | Degraded | NoNewPositions | GlobalPause | EmergencyStop

  datatype RiskError = NegativeEquity | NoProfiles | DayStartNotPositive

  /** A candidate that passed its model's validation: both references are positive. */
  datatype CandidateFields = Candidate(symbol: string, entry: real, stop: real)
  type Candidate = c: CandidateFields | c.entry > 0.0 && c.stop > 0.0 witness Candidate("", 1.0, 1.0)

  datatype Snapshot = Snapshot(
    equity: real, dayStart: real, totalPct: real, symbolPct: real, openPositions: int,
    dailyOrders: int, symbolDailyTrades: int, consecutiveLosses: int, dataFresh: bool, killSwitch: bool)

  datatype Decision = Decision(approved: bool, state: RiskState, multiplier: real, reasons: seq<string>)

  datatype Size = Size(approved: bool, notional: real, maxLoss: real, reasons: seq<string>)

  const MAX_DAILY_ORDERS := 15
  const MAX_SYMBOL_DAILY_TRADES := 4
  const MAX_CONSECUTIVE_LOSSES := 4

  // ----- profiles -----

  const DEFAULT_PROFILES: seq<RiskProfile> := [
    RiskProfile("small_balanced", 0.0, Some(1000.0), 5.0, 7.0, 10.0, 1.5, 2.0, 30.0, 70.0),
    RiskProfile("medium_conservative", 1000.0, Some(10000.0), 3.0, 5.0, 7.0, 1.0, 1.5, 25.0, 60.0),
    RiskProfile("large_conservative", 10000.0, None, 2.0, 4.0, 5.0, 0.5, 1.0, 20.0, 50.0)]

  predicate InTier(equity: real, p: RiskProfile) {
    equity >= p.equityMin && (p.equityMax == None || equity < p.equityMax.value)
  }

  function FirstTier(equity: real, profiles: seq<RiskProfile>): Option<RiskProfile> {
    if |profiles| == 0 then None
    else if InTier(equity, profiles[0]) then Some(profiles[0])
    else FirstTier(equity, profiles[1..])
  }

  function SelectRiskProfile(equity: real, profiles: seq<RiskProfile>): Result<RiskProfile, RiskError> {
    if equity < 0.0 then Err(NegativeEquity)
    else if |profiles| == 0 then Err(NoProfiles)
    else Ok(FirstTier(equity, profiles).GetOr(profiles[|profiles| - 1]))
  }

  /** The built-in tiers partition the non-negative equities: the chosen tier contains the equity,
      no other does, and the fallback is never used. */
  lemma TiersPartition(equity: real, i: nat)
    requires equity >= 0.0 && i < |DEFAULT_PROFILES|
    ensures SelectRiskProfile(equity, DEFAULT_PROFILES).Ok?
    ensures InTier(equity, DEFAULT_PROFILES[i])
            <==> SelectRiskProfile(equity, DEFAULT_PROFILES) == Ok(DEFAULT_PROFILES[i])
  {
    var ps := DEFAULT_PROFILES;
    assert FirstTier(equity, ps[1..]) == if InTier(equity, ps[1]) then Some(ps[1]) else FirstTier(equity, ps[2..]);
    assert FirstTier(equity, ps[2..]) == if InTier(equity, ps[2]) then Some(ps[2]) else FirstTier(equity, ps[3..]);
  }

  /** Of any list of profiles, the first whose range contains the equity is chosen, and the last one if none
      does. */
  lemma {:induction false} FirstTierIs(equity: real, profiles: seq<RiskProfile>)
    ensures FirstTier(equity, profiles) == None
            <==> forall i :: 0 <= i < |profiles| ==> !Covers(profiles[i], equity)
    ensures FirstTier(equity, profiles) != None
            ==> exists i :: 0 <= i < |profiles| && FirstTier(equity, profiles) == Some(profiles[i])
                            && Covers(profiles[i], equity) && forall j :: 0 <= j < i ==> !Covers(profiles[j], equity)
  {
    if |profiles| != 0 && !InTier(equity, profiles[0]) {
      var rest := profiles[1..];
      FirstTierIs(equity, rest);
      assert forall i :: 0 < i < |profiles| ==> profiles[i] == rest[i - 1];
      if FirstTier(equity, rest) != None {
        var i :| 0 <= i < |rest| && FirstTier(equity, rest) == Some(rest[i])
                 && Covers(rest[i], equity) && forall j :: 0 <= j < i ==> !Covers(rest[j], equity);
        assert profiles[i + 1] == rest[i];
      }
    }
  }

  /** From the lower bound on, and below the upper one if there is one. */
  predicate Covers(p: RiskProfile, equity: real) {
    p.equityMin <= equity && (p.equityMax.Some? ==> equity < p.equityMax.value)
  }

  lemma SelectedProfile(equity: real, profiles: seq<RiskProfile>)
    ensures SelectRiskProfile(equity, profiles) == Err(NegativeEquity) <==> equity < 0.0
    ensures SelectRiskProfile(equity, profiles) == Err(NoProfiles) <==> equity >= 0.0 && profiles == []
    ensures equity >= 0.0 && profiles != [] ==>
              exists i :: 0 <= i < |profiles| && SelectRiskProfile(equity, profiles) == Ok(profiles[i])
                          && (forall j :: 0 <= j < i ==> !Covers(profiles[j], equity))
                          && (Covers(profiles[i], equity) || i == |profiles| - 1)
  {
    FirstTierIs(equity, profiles);
    if equity >= 0.0 && profiles != [] && FirstTier(equity, profiles) == None {
      assert SelectRiskProfile(equity, profiles) == Ok(profiles[|profiles| - 1]);
    }
  }

  /** The built-in profiles, by equity. */
  lemma BuiltInProfile(equity: real)
    requires equity >= 0.0
    ensures SelectRiskProfile(equity, DEFAULT_PROFILES)
         == Ok(if equity < 1000.0
               then RiskProfile("small_balanced", 0.0, Some(1000.0), 5.0, 7.0, 10.0, 1.5, 2.0, 30.0, 70.0)
               else if equity < 10000.0
               then RiskProfile("medium_conservative", 1000.0, Some(10000.0), 3.0, 5.0, 7.0, 1.0, 1.5, 25.0, 60.0)
               else RiskProfile("large_conservative", 10000.0, None, 2.0, 4.0, 5.0, 0.5, 1.0, 20.0, 50.0))
  {
    TiersPartition(equity, 0);
    TiersPartition(equity, 1);
    TiersPartition(equity, 2);
  }

  // ----- daily loss -----

  function DailyPnlPct(dayStart: real, current: real): Result<real, RiskError> {
    if dayStart <= 0.0 then Err(DayStartNotPositive) else Ok((current - dayStart) / dayStart * 100.0)
  }

  function ClassifyDailyLoss(dayStart: real, current: real, p: RiskProfile): Result<RiskState, RiskError> {
    var pnl :- DailyPnlPct(dayStart, current);
    Ok(if -pnl >= p.globalPausePct then GlobalPause
       else if -pnl >= p.noNewPositionsPct then NoNewPositions
       else if -pnl >= p.cautionPct then Degraded
       else Normal)
  }

  // ----- pre-trade checks -----

  function LimitReasons(s: Snapshot, p: RiskProfile): seq<string> {
    (if s.totalPct >= p.totalPositionPct then ["max_total_position_reached"] else [])
    + (if s.symbolPct >= p.symbolPositionPct then ["max_symbol_position_reached"] else [])
    + (if s.dailyOrders >= MAX_DAILY_ORDERS then ["max_daily_orders_reached"] else [])
    + (if s.symbolDailyTrades >= MAX_SYMBOL_DAILY_TRADES then ["max_symbol_daily_trades_reached"] else [])
    + (if s.consecutiveLosses >= MAX_CONSECUTIVE_LOSSES then ["max_consecutive_losses_reached"] else [])
  }

  function StateName(s: RiskState): string {
    match s
    case Normal => "normal"
    case Degraded => "degraded"
    case NoNewPositions => "no_new_positions"
    case GlobalPause => "global_pause"
    case EmergencyStop => "emergency_stop"
  }

  function PreTrade(s: Snapshot, p: RiskProfile): Result<Decision, RiskError> {
    if s.killSwitch then Ok(Decision(false, EmergencyStop, 0.0, ["kill_switch_enabled"]))
    else if !s.dataFresh then Ok(Decision(false, NoNewPositions, 0.0, ["stale_market_data"]))
    else
      var loss :- ClassifyDailyLoss(s.dayStart, s.equity, p);
      Ok(if loss == NoNewPositions || loss == GlobalPause
         then Decision(false, loss, 0.0, ["daily_loss_" + StateName(loss)])
         else if LimitReasons(s, p) != [] then Decision(false, NoNewPositions, 0.0, LimitReasons(s, p))
         else if loss == Degraded then Decision(true, Degraded, 0.5, [])
         else Decision(true, Normal, 1.0, []))
  }

  method CollectLimits(s: Snapshot, p: RiskProfile) returns (rejectReasons: seq<string>)
    ensures rejectReasons == LimitReasons(s, p)
  {
    rejectReasons := [];
    if s.totalPct >= p.totalPositionPct { rejectReasons := rejectReasons + ["max_total_position_reached"]; }
    if s.symbolPct >= p.symbolPositionPct { rejectReasons := rejectReasons + ["max_symbol_position_reached"]; }
    if s.dailyOrders >= MAX_DAILY_ORDERS { rejectReasons := rejectReasons + ["max_daily_orders_reached"]; }
    if s.symbolDailyTrades >= MAX_SYMBOL_DAILY_TRADES {
      rejectReasons := rejectReasons + ["max_symbol_daily_trades_reached"];
    }
    if s.consecutiveLosses >= MAX_CONSECUTIVE_LOSSES {
      rejectReasons := rejectReasons + ["max_consecutive_losses_reached"];
    }
  }

  /** The check-by-check procedure: it raises, rejects with these reasons in this order, or approves. */
  method EvaluatePreTradeRisk(s: Snapshot, p: RiskProfile) returns (r: Result<Decision, RiskError>)
    ensures r == PreTrade(s, p)
  {
    if s.killSwitch { return Ok(Decision(false, EmergencyStop, 0.0, ["kill_switch_enabled"])); }
    if !s.dataFresh { return Ok(Decision(false, NoNewPositions, 0.0, ["stale_market_data"])); }
    var classified := ClassifyDailyLoss(s.dayStart, s.equity, p);
    if classified.Err? { return Err(classified.error); }
    var loss := classified.value;
    if loss == NoNewPositions || loss == GlobalPause {
      return Ok(Decision(false, loss, 0.0, ["daily_loss_" + StateName(loss)]));
    }
    var rejectReasons := CollectLimits(s, p);
    if rejectReasons != [] { return Ok(Decision(false, NoNewPositions, 0.0, rejectReasons)); }
    if loss == Degraded { return Ok(Decision(true, Degraded, 0.5, [])); }
    return Ok(Decision(true, Normal, 1.0, []));
  }

  /** Everything pre-trade asks for, read off the snapshot. */
  predicate Approves(s: Snapshot, p: RiskProfile) {
    && !s.killSwitch && s.dataFresh && s.dayStart > 0.0
    && 100.0 * (s.dayStart - s.equity) < p.noNewPositionsPct * s.dayStart
    && s.totalPct < p.totalPositionPct && s.symbolPct < p.symbolPositionPct
    && s.dailyOrders < 15 && s.symbolDailyTrades < 4 && s.consecutiveLosses < 4
  }

  /** Approval, in both directions, as one condition a caller can read off the snapshot; the loss
      limit is stated without the division the code performs. */
  lemma ApprovedIff(s: Snapshot, p: RiskProfile)
    requires p.noNewPositionsPct <= p.globalPausePct
    ensures (PreTrade(s, p).Ok? && PreTrade(s, p).value.approved)
       <==> !s.killSwitch && s.dataFresh && s.dayStart > 0.0
            && 100.0 * (s.dayStart - s.equity) < p.noNewPositionsPct * s.dayStart
            && s.totalPct < p.totalPositionPct && s.symbolPct < p.symbolPositionPct
            && s.dailyOrders < 15 && s.symbolDailyTrades < 4 && s.consecutiveLosses < 4
  {
    if s.dayStart > 0.0 {
      var x := (s.equity - s.dayStart) / s.dayStart;
      DivMul(s.equity - s.dayStart, s.dayStart);
      LossLimit(x, s.dayStart, p.noNewPositionsPct);
      assert LimitReasons(s, p) == []
        <==> (s.totalPct < p.totalPositionPct && s.symbolPct < p.symbolPositionPct
              && s.dailyOrders < MAX_DAILY_ORDERS && s.symbolDailyTrades < MAX_SYMBOL_DAILY_TRADES
              && s.consecutiveLosses < MAX_CONSECUTIVE_LOSSES);
    }
  }

  lemma InOneOf<T>(x: T, a: seq<T>, b: seq<T>, c: seq<T>, d: seq<T>, e: seq<T>)
    ensures x in a + b + c + d + e <==> x in a || x in b || x in c || x in d || x in e
  {}

  lemma ReasonIn(s: Snapshot, p: RiskProfile, x: string)
    ensures x in LimitReasons(s, p)
       <==> || (s.totalPct >= p.totalPositionPct && x == "max_total_position_reached")
            || (s.symbolPct >= p.symbolPositionPct && x == "max_symbol_position_reached")
            || (s.dailyOrders >= 15 && x == "max_daily_orders_reached")
            || (s.symbolDailyTrades >= 4 && x == "max_symbol_daily_trades_reached")
            || (s.consecutiveLosses >= 4 && x == "max_consecutive_losses_reached")
  {
    InOneOf(x, if s.totalPct >= p.totalPositionPct then ["max_total_position_reached"] else [],
            if s.symbolPct >= p.symbolPositionPct then ["max_symbol_position_reached"] else [],
            if s.dailyOrders >= MAX_DAILY_ORDERS then ["max_daily_orders_reached"] else [],
            if s.symbolDailyTrades >= MAX_SYMBOL_DAILY_TRADES then ["max_symbol_daily_trades_reached"] else [],
            if s.consecutiveLosses >= MAX_CONSECUTIVE_LOSSES then ["max_consecutive_losses_reached"] else []);
  }

  /** Each limit that is met is named, and nothing else is. */
  lemma LimitReasonsIff(s: Snapshot, p: RiskProfile)
    ensures var r := LimitReasons(s, p);
            && ("max_total_position_reached" in r <==> s.totalPct >= p.totalPositionPct)
            && ("max_symbol_position_reached" in r <==> s.symbolPct >= p.symbolPositionPct)
            && ("max_daily_orders_reached" in r <==> s.dailyOrders >= 15)
            && ("max_symbol_daily_trades_reached" in r <==> s.symbolDailyTrades >= 4)
            && ("max_consecutive_losses_reached" in r <==> s.consecutiveLosses >= 4)
            && forall x :: x in r ==> x in {"max_total_position_reached", "max_symbol_position_reached",
                                            "max_daily_orders_reached", "max_symbol_daily_trades_reached",
                                            "max_consecutive_losses_reached"}
  {
    DistinctReasons();
    forall x: string { ReasonIn(s, p, x); }
  }

  lemma DistinctReasons()
    ensures |"max_total_position_reached"| == 26 && |"max_symbol_position_reached"| == 27
    ensures |"max_daily_orders_reached"| == 24 && |"max_symbol_daily_trades_reached"| == 31
    ensures |"max_consecutive_losses_reached"| == 30
  {}

  /** What a refusal says, check by check: the switch, stale data, the day's loss, and then every limit met. */
  lemma RefusalIs(s: Snapshot, p: RiskProfile)
    ensures s.killSwitch ==> PreTrade(s, p) == Ok(Decision(false, EmergencyStop, 0.0, ["kill_switch_enabled"]))
    ensures !s.killSwitch && !s.dataFresh
            ==> PreTrade(s, p) == Ok(Decision(false, NoNewPositions, 0.0, ["stale_market_data"]))
    ensures PreTrade(s, p) == Err(DayStartNotPositive) <==> !s.killSwitch && s.dataFresh && s.dayStart <= 0.0
    ensures PreTrade(s, p).Err? ==> PreTrade(s, p) == Err(DayStartNotPositive)
    ensures !s.killSwitch && s.dataFresh && s.dayStart > 0.0 ==>
              var d := PreTrade(s, p).value;
              if HasLost(s.dayStart, s.equity, p.globalPausePct)
              then d == Decision(false, GlobalPause, 0.0, ["daily_loss_global_pause"])
              else if HasLost(s.dayStart, s.equity, p.noNewPositionsPct)
              then d == Decision(false, NoNewPositions, 0.0, ["daily_loss_no_new_positions"])
              else if d.approved
              then d.state == (if HasLost(s.dayStart, s.equity, p.cautionPct) then Degraded else Normal)
              else d.state == NoNewPositions && d.reasons == LimitReasons(s, p)
  {
    if s.dayStart > 0.0 { DailyLossThresholds(s.dayStart, s.equity, p); }
    assert "daily_loss_" + "global_pause" == "daily_loss_global_pause";
    assert "daily_loss_" + "no_new_positions" == "daily_loss_no_new_positions";
  }

  lemma LossLimit(x: real, d: real, limit: real)
    requires d > 0.0
    ensures -(x * 100.0) >= limit <==> -(x * d * 100.0) >= limit * d
  {
    if -(x * 100.0) >= limit { MulMono(d, limit, -(x * 100.0)); }
    else { MulPos(limit + x * 100.0, d); }
  }

  /** The day's loss is at least this percentage of the opening equity. */
  predicate HasLost(dayStart: real, current: real, pct: real) { 100.0 * (dayStart - current) >= pct * dayStart }

  lemma LostIff(dayStart: real, current: real, pct: real)
    requires dayStart > 0.0
    ensures -DailyPnlPct(dayStart, current).value >= pct <==> HasLost(dayStart, current, pct)
  {
    var x := (current - dayStart) / dayStart;
    DivMul(current - dayStart, dayStart);
    LossLimit(x, dayStart, pct);
  }

  /** The most severe threshold that the loss has reached decides, without the division the code performs. */
  lemma DailyLossThresholds(dayStart: real, current: real, p: RiskProfile)
    requires dayStart > 0.0
    ensures ClassifyDailyLoss(dayStart, current, p)
         == Ok(if HasLost(dayStart, current, p.globalPausePct) then GlobalPause
               else if HasLost(dayStart, current, p.noNewPositionsPct) then NoNewPositions
               else if HasLost(dayStart, current, p.cautionPct) then Degraded
               else Normal)
  {
    LostIff(dayStart, current, p.globalPausePct);
    LostIff(dayStart, current, p.noNewPositionsPct);
    LostIff(dayStart, current, p.cautionPct);
  }

  /** A rejection sizes nothing; an approval halves the size exactly from the caution threshold on. */
  lemma MultiplierRange(s: Snapshot, p: RiskProfile)
    requires PreTrade(s, p).Ok?
    ensures var d := PreTrade(s, p).value;
            d.multiplier == if !d.approved then 0.0
                             else if HasLost(s.dayStart, s.equity, p.cautionPct) then 0.5 else 1.0
  {
    if PreTrade(s, p).value.approved { DailyLossThresholds(s.dayStart, s.equity, p); }
  }

  // ----- position sizing -----

  function MaxLoss(equity: real, p: RiskProfile): real {
    Min(equity * p.tradeRiskPct / 100.0, equity * p.tradeRiskHardCapPct / 100.0)
  }

  function SymbolCap(equity: real, p: RiskProfile): real { equity * p.symbolPositionPct / 100.0 }

  function AdjustedNotional(c: Candidate, d: Decision, p: RiskProfile, equity: real): real
    requires c.entry > c.stop
  {
    DivPos(c.entry - c.stop, c.entry);
    MaxLoss(equity, p) / ((c.entry - c.stop) / c.entry) * d.multiplier
  }

  function CalculatePositionSize(c: Candidate, d: Decision, p: RiskProfile, equity: real, minNotional: real): Size {
    if !d.approved then Size(false, 0.0, 0.0, ["pre_trade_rejected"] + d.reasons)
    else if c.entry - c.stop <= 0.0 then Size(false, 0.0, 0.0, ["invalid_stop_distance"])
    else
      var final := Min(AdjustedNotional(c, d, p, equity), SymbolCap(equity, p));
      if final < minNotional then Size(false, 0.0, MaxLoss(equity, p), ["below_min_notional"])
      else Size(true, final, MaxLoss(equity, p), [])
  }

  /** An approved size lies between the minimum notional and the symbol cap, and putting the whole
      notional at the entry reference would lose at most the allowed loss at the stop. */
  lemma SizeBounds(c: Candidate, d: Decision, p: RiskProfile, equity: real, minNotional: real)
    requires CalculatePositionSize(c, d, p, equity, minNotional).approved
    ensures var z := CalculatePositionSize(c, d, p, equity, minNotional);
            minNotional <= z.notional <= SymbolCap(equity, p) && d.approved && c.entry > c.stop
            && z.maxLoss == MaxLoss(equity, p)
            && z.notional * (c.entry - c.stop) <= d.multiplier * z.maxLoss * c.entry
            && (z.notional < SymbolCap(equity, p)
                ==> z.notional * (c.entry - c.stop) == d.multiplier * z.maxLoss * c.entry)
  {
    var z := CalculatePositionSize(c, d, p, equity, minNotional);
    var dist := c.entry - c.stop;
    var frac, loss := dist / c.entry, MaxLoss(equity, p);
    DivPos(dist, c.entry);
    DivMul(dist, c.entry);
    DivMul(loss, frac);
    var adjusted := loss / frac * d.multiplier;
    assert adjusted * dist == d.multiplier * loss * c.entry by {
      assert adjusted * dist == loss / frac * d.multiplier * (frac * c.entry);
      assert loss / frac * d.multiplier * (frac * c.entry) == (loss / frac * frac) * d.multiplier * c.entry;
    }
    MulMono(dist, z.notional, adjusted);
  }

  /** The loss per trade is the smaller of its target and its hard cap. */
  lemma MaxLossIs(equity: real, p: RiskProfile)
    ensures 100.0 * MaxLoss(equity, p)
         == Min(equity * p.tradeRiskPct, equity * p.tradeRiskHardCapPct)
    ensures 100.0 * SymbolCap(equity, p) == equity * p.symbolPositionPct
  {}

  lemma SizeOrder(adjusted: real, dist: real, loss: real, least: real)
    requires dist > 0.0 && adjusted * dist == loss
    ensures adjusted >= least <==> loss >= least * dist
  {
    Expanded(adjusted, least, dist);
    KeepsSign(adjusted - least, dist);
  }

  lemma Expanded(a: real, b: real, k: real)
    ensures (a - b) * k == a * k - b * k
  {}

  lemma KeepsSign(x: real, k: real)
    requires k > 0.0
    ensures x >= 0.0 <==> x * k >= 0.0
  {
    if x >= 0.0 { MulNonneg(x, k); } else { MulPos(-x, k); Negated(x, k); }
  }

  lemma Negated(x: real, k: real)
    ensures -x * k == -(x * k)
  {}

  lemma AdjustedLoses(c: Candidate, d: Decision, p: RiskProfile, equity: real)
    requires c.entry > c.stop
    ensures AdjustedNotional(c, d, p, equity) * (c.entry - c.stop) == d.multiplier * MaxLoss(equity, p) * c.entry
  {
    var dist := c.entry - c.stop;
    var frac, loss := dist / c.entry, MaxLoss(equity, p);
    DivPos(dist, c.entry);
    DivMul(dist, c.entry);
    DivMul(loss, frac);
    assert loss / frac * d.multiplier * (frac * c.entry) == (loss / frac * frac) * d.multiplier * c.entry;
  }

  /** The share of the allowed loss that is risked: half from the caution threshold on. */
  function Share(s: Snapshot, p: RiskProfile): real { if HasLost(s.dayStart, s.equity, p.cautionPct) then 0.5 else 1.0 }

  /** The symbol cap reaches the minimum notional, and so does the notional that loses the allowed loss at a stop
      below the entry. */
  predicate Sizes(c: Candidate, s: Snapshot, p: RiskProfile, minNotional: real) {
    && c.entry > c.stop && s.equity * p.symbolPositionPct >= 100.0 * minNotional
    && Share(s, p) * Min(s.equity * p.tradeRiskPct, s.equity * p.tradeRiskHardCapPct) * c.entry
       >= 100.0 * minNotional * (c.entry - c.stop)
  }

  /** The same with the loss and the cap already divided by a hundred. */
  predicate SizesFor(entry: real, stop: real, m: real, loss: real, cap: real, minNotional: real) {
    entry > stop && cap >= minNotional && m * loss * entry >= minNotional * (entry - stop)
  }

  lemma SizesScaled(c: Candidate, s: Snapshot, p: RiskProfile, minNotional: real)
    ensures Sizes(c, s, p, minNotional)
       <==> SizesFor(c.entry, c.stop, Share(s, p), MaxLoss(s.equity, p), SymbolCap(s.equity, p), minNotional)
  {
    MaxLossIs(s.equity, p);
    ScaledLoss(Share(s, p), MaxLoss(s.equity, p), c.entry, minNotional, c.entry - c.stop,
               Min(s.equity * p.tradeRiskPct, s.equity * p.tradeRiskHardCapPct));
  }

  lemma ScaledLoss(m: real, loss: real, entry: real, least: real, dist: real, raw: real)
    requires raw == 100.0 * loss
    ensures m * loss * entry >= least * dist <==> m * raw * entry >= 100.0 * least * dist
  {
    assert m * (100.0 * loss) * entry == 100.0 * (m * loss * entry);
    assert 100.0 * least * dist == 100.0 * (least * dist);
  }

  lemma ApprovedSize(c: Candidate, d: Decision, p: RiskProfile, equity: real, minNotional: real)
    requires d.approved
    ensures CalculatePositionSize(c, d, p, equity, minNotional).approved
       <==> SizesFor(c.entry, c.stop, d.multiplier, MaxLoss(equity, p), SymbolCap(equity, p), minNotional)
  {
    SizeApprovedIff(c, d, p, equity, minNotional);
  }

  lemma ApprovedShare(s: Snapshot, p: RiskProfile)
    requires p.noNewPositionsPct <= p.globalPausePct && Approves(s, p)
    ensures PreTrade(s, p).Ok? && PreTrade(s, p).value.approved && PreTrade(s, p).value.multiplier == Share(s, p)
  {
    ApprovedIff(s, p);
    MultiplierRange(s, p);
  }

  /** For an approved trade. */
  lemma SizesIff(c: Candidate, s: Snapshot, p: RiskProfile, minNotional: real)
    requires p.noNewPositionsPct <= p.globalPausePct && Approves(s, p)
    ensures PreTrade(s, p).Ok?
    ensures CalculatePositionSize(c, PreTrade(s, p).value, p, s.equity, minNotional).approved
       <==> Sizes(c, s, p, minNotional)
  {
    ApprovedShare(s, p);
    ApprovedSize(c, PreTrade(s, p).value, p, s.equity, minNotional);
    SizesScaled(c, s, p, minNotional);
  }

  /** A size is approved exactly if the trade is, the stop lies below the entry, and both the symbol cap and the
      notional that risks the allowed loss reach the minimum; otherwise the first of these that fails is said. */
  lemma SizeApprovedIff(c: Candidate, d: Decision, p: RiskProfile, equity: real, minNotional: real)
    ensures var z := CalculatePositionSize(c, d, p, equity, minNotional);
            && (z.approved <==> d.approved && c.entry > c.stop && SymbolCap(equity, p) >= minNotional
                                && d.multiplier * MaxLoss(equity, p) * c.entry >= minNotional * (c.entry - c.stop))
            && (z.approved ==> z.reasons == [])
            && (!z.approved ==> z.notional == 0.0
                                && z.maxLoss == (if !d.approved || c.entry <= c.stop then 0.0 else MaxLoss(equity, p))
                                && z.reasons == if !d.approved then ["pre_trade_rejected"] + d.reasons
                                                else if c.entry <= c.stop then ["invalid_stop_distance"]
                                                else ["below_min_notional"])
  {
    if d.approved && c.entry > c.stop {
      AdjustedLoses(c, d, p, equity);
      SizeOrder(AdjustedNotional(c, d, p, equity), c.entry - c.stop, d.multiplier * MaxLoss(equity, p) * c.entry,
                minNotional);
    }
  }

  /** What an approved size may lose at the stop. */
  function AllowedLoss(d: Decision, p: RiskProfile, equity: real): real { d.multiplier * MaxLoss(equity, p) }

  lemma Shrinks(loss: real, m: real)
    requires loss >= 0.0 && 0.0 <= m <= 1.0
    ensures 0.0 <= m * loss <= loss
  {
    MulNonneg(m, loss);
    var k := 1.0 - m;
    MulNonneg(k, loss);
    assert k * loss == loss - m * loss;
  }

  /** Never more than the target or the hard-cap share of equity. */
  lemma LossWithinHardCap(d: Decision, p: RiskProfile, equity: real)
    requires 0.0 < d.multiplier <= 1.0 && equity >= 0.0 && p.tradeRiskPct >= 0.0 && p.tradeRiskHardCapPct >= 0.0
    ensures 0.0 <= AllowedLoss(d, p, equity) <= equity * p.tradeRiskHardCapPct / 100.0
    ensures AllowedLoss(d, p, equity) <= equity * p.tradeRiskPct / 100.0
  {
    MulNonneg(equity, p.tradeRiskPct);
    MulNonneg(equity, p.tradeRiskHardCapPct);
    var target, hardCap := equity * p.tradeRiskPct / 100.0, equity * p.tradeRiskHardCapPct / 100.0;
    var m, loss := d.multiplier, Min(target, hardCap);
    Shrinks(loss, m);
    var allowed := m * loss;
    assert 0.0 <= allowed <= target && allowed <= hardCap;
    assert AllowedLoss(d, p, equity) == allowed;
  }
}
