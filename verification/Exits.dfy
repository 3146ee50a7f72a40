/** trading/strategies/exits.py: exit rules and the engine that runs them in order. */
module Exits {
  import opened Prelude

  datatype ExitReason = HardStop | TakeProfit | TimeExit

  datatype ExitSignal = ExitSignal(symbol: string, reason: ExitReason, exitPrice: real, qty: real, createdAt: int)

  /** What a rule sees of a position; `openedAt` and `now` are in seconds. */
  datatype Holding = Holding(symbol: string, qty: real, avgEntry: real, openedAt: int)

  datatype ExitRule =
    | HardStopRule(stop: real)
    | TakeProfitRule(target: real)
    | TimeExitRule(maxHours: int)
  {
    function Evaluate(h: Holding, price: real, now: int): Option<ExitSignal> {
      match this
      case HardStopRule(stop) =>
        if price <= stop then Some(ExitSignal(h.symbol, HardStop, stop, h.qty, now)) else None
      case TakeProfitRule(target) =>
        if price >= target then Some(ExitSignal(h.symbol, TakeProfit, target, h.qty, now)) else None
      case TimeExitRule(maxHours) =>
        if now - h.openedAt >= maxHours * 3600 then Some(ExitSignal(h.symbol, TimeExit, price, h.qty, now))
        else None
    }
  }

  function FirstSignal(rules: seq<ExitRule>, h: Holding, price: real, now: int): Option<ExitSignal> {
    if |rules| == 0 then None
    else match rules[0].Evaluate(h, price, now)
      case Some(x) => Some(x)
      case None => FirstSignal(rules[1..], h, price, now)
  }

  method RunRules(rules: seq<ExitRule>, h: Holding, price: real, now: int) returns (signal: Option<ExitSignal>)
    ensures signal == FirstSignal(rules, h, price, now)
  {
    for i := 0 to |rules|
      invariant FirstSignal(rules, h, price, now) == FirstSignal(rules[i..], h, price, now)
    {
      var s := rules[i].Evaluate(h, price, now);
      if s != None { return s; }
    }
    return None;
  }

  datatype ExitEngine = ExitEngine(hardStop: Option<real>, takeProfitPct: real, maxHours: int) {

    function StopFor(positionStop: Option<real>): Option<real> {
      if positionStop != None then positionStop else hardStop
    }

    function Target(avgEntry: real): real { avgEntry * (1.0 + takeProfitPct / 100.0) }

    function Rules(positionStop: Option<real>, avgEntry: real): seq<ExitRule> {
      (if StopFor(positionStop) != None then [HardStopRule(StopFor(positionStop).value)] else [])
      + (if takeProfitPct != 0.0 && avgEntry != 0.0 then [TakeProfitRule(Target(avgEntry))] else [])
      + (if maxHours > 0 then [TimeExitRule(maxHours)] else [])
    }

    function Decide(positionStop: Option<real>, h: Holding, price: real, now: int): Option<ExitSignal> {
      FirstSignal(Rules(positionStop, h.avgEntry), h, price, now)
    }

    /** Builds the applicable rules and returns the first signal any of them gives. */
    method Evaluate(positionStop: Option<real>, h: Holding, price: real, now: int)
      returns (signal: Option<ExitSignal>)
      ensures signal == Decide(positionStop, h, price, now)
    {
      var rules: seq<ExitRule> := [];
      var stopRef := if positionStop != None then positionStop else hardStop;
      if stopRef != None { rules := rules + [HardStopRule(stopRef.value)]; }
      if takeProfitPct != 0.0 && h.avgEntry != 0.0 { rules := rules + [TakeProfitRule(Target(h.avgEntry))]; }
      if maxHours > 0 { rules := rules + [TimeExitRule(maxHours)]; }
      assert rules == Rules(positionStop, h.avgEntry);
      signal := RunRules(rules, h, price, now);
    }
  }

  /** Every exit signal, whatever rule gave it, is for the whole position. */
  lemma {:induction false} FullExit(rules: seq<ExitRule>, h: Holding, price: real, now: int)
    requires FirstSignal(rules, h, price, now) != None
    ensures FirstSignal(rules, h, price, now).value.qty == h.qty
    ensures FirstSignal(rules, h, price, now).value.symbol == h.symbol
  {
    if rules[0].Evaluate(h, price, now) == None { FullExit(rules[1..], h, price, now); }
  }

  /** The engine read without its rule list. The position's own stop, or else the engine's, wins over the
      target, a percentage above the average entry, and the target over the clock; the signal names its price
      and time; and there is none exactly when none of the three conditions holds. */
  lemma Priority(e: ExitEngine, positionStop: Option<real>, h: Holding, price: real, now: int)
    ensures var stop := if positionStop != None then positionStop else e.hardStop;
            var target := h.avgEntry + h.avgEntry * e.takeProfitPct / 100.0;
            e.Decide(positionStop, h, price, now) == FirstDue(stop, target, e, h, price, now)
  {
    var stop := e.StopFor(positionStop);
    var a := if stop != None then [HardStopRule(stop.value)] else [];
    var b := if e.takeProfitPct != 0.0 && h.avgEntry != 0.0 then [TakeProfitRule(e.Target(h.avgEntry))] else [];
    var c := if e.maxHours > 0 then [TimeExitRule(e.maxHours)] else [];
    FirstOfThree(a, b, c, h, price, now);
    TargetIs(e, h.avgEntry);
  }

  /** Stop, target, clock. */
  function FirstDue(stop: Option<real>, target: real, e: ExitEngine, h: Holding, price: real, now: int)
    : Option<ExitSignal>
  {
    if stop != None && price <= stop.value then Some(ExitSignal(h.symbol, HardStop, stop.value, h.qty, now))
    else if e.takeProfitPct != 0.0 && h.avgEntry != 0.0 && price >= target
    then Some(ExitSignal(h.symbol, TakeProfit, target, h.qty, now))
    else if e.maxHours > 0 && now - h.openedAt >= e.maxHours * 3600
    then Some(ExitSignal(h.symbol, TimeExit, price, h.qty, now))
    else None
  }

  lemma TargetIs(e: ExitEngine, avgEntry: real)
    ensures e.Target(avgEntry) == avgEntry + avgEntry * e.takeProfitPct / 100.0
  {}

  lemma FirstOfThree(a: seq<ExitRule>, b: seq<ExitRule>, c: seq<ExitRule>, h: Holding, price: real, now: int)
    requires |a| <= 1 && |b| <= 1 && |c| <= 1
    ensures FirstSignal(a + b + c, h, price, now)
         == if |a| == 1 && a[0].Evaluate(h, price, now) != None then a[0].Evaluate(h, price, now)
            else if |b| == 1 && b[0].Evaluate(h, price, now) != None then b[0].Evaluate(h, price, now)
            else if |c| == 1 then c[0].Evaluate(h, price, now) else None
  {
    SkipOne(a, b + c, h, price, now);
    SkipOne(b, c, h, price, now);
    assert c + [] == c && a + (b + c) == a + b + c;
    SkipOne(c, [], h, price, now);
  }

  lemma SkipOne(a: seq<ExitRule>, rest: seq<ExitRule>, h: Holding, price: real, now: int)
    requires |a| <= 1
    ensures FirstSignal(a + rest, h, price, now)
         == if |a| == 1 && a[0].Evaluate(h, price, now) != None then a[0].Evaluate(h, price, now)
            else FirstSignal(rest, h, price, now)
  {
    if |a| == 1 { assert (a + rest)[1..] == rest; } else { assert a + rest == rest; }
  }
}
