/** trading/execution/gate.py, trading/runtime/mode.py and trading/risk/pre_flight.py: which route an
    order may take, which mode changes are allowed, and the checks before live trading. */
module Gate {
  import opened Prelude
  import opened Risk

  datatype Mode = Paused | PaperAuto | LiveShadow | LiveSmallAuto

  datatype Lock = Lock(enabled: bool, reason: Option<string>)

  datatype Route = PaperRoute | ShadowRoute | BlockedRoute

  datatype GateDecision = GateDecision(allowed: bool, route: Route, reason: string, mode: Mode)

  /** `reason or default` in Python: an empty string counts as absent. */
  function ReasonOr(reason: Option<string>, default: string): string {
    if reason == None || reason.value == "" then default else reason.value
  }

  function Decide(mode: Mode, lock: Lock, riskApproved: bool, killSwitch: bool): GateDecision {
    if killSwitch then GateDecision(false, BlockedRoute, "kill_switch_active", mode)
    else if lock.enabled && (mode == LiveShadow || mode == LiveSmallAuto)
    then GateDecision(false, BlockedRoute, ReasonOr(lock.reason, "live_trading_lock_enabled"), mode)
    else match mode
      case Paused => GateDecision(false, BlockedRoute, "mode_paused", mode)
      case PaperAuto =>
        if !riskApproved then GateDecision(false, BlockedRoute, "risk_rejected", mode)
        else GateDecision(true, PaperRoute, "paper_auto_approved", mode)
      case LiveShadow => GateDecision(true, ShadowRoute, "live_shadow_approved", mode)
      case LiveSmallAuto =>
        GateDecision(false, BlockedRoute, "live_small_auto_requires_explicit_unlock", mode)
  }

  function ComputeExecutionRoute(mode: Mode): Route {
    match mode
    case Paused => BlockedRoute
    case PaperAuto => PaperRoute
    case LiveShadow => ShadowRoute
    case LiveSmallAuto => BlockedRoute
  }

  /** The gate never takes a route other than the mode's own or a block; it allows exactly the
      unblocked ones; paper needs paper_auto and risk approval, and no mode reaches a live order. */
  lemma GateRoutes(mode: Mode, lock: Lock, riskApproved: bool, killSwitch: bool)
    ensures var d := Decide(mode, lock, riskApproved, killSwitch);
            (d.route == ComputeExecutionRoute(mode) || d.route == BlockedRoute)
            && (d.allowed <==> d.route != BlockedRoute) && d.mode == mode
            && (d.route == PaperRoute <==> mode == PaperAuto && riskApproved && !killSwitch)
            && (d.route == ShadowRoute <==> mode == LiveShadow && !lock.enabled && !killSwitch)
  {}

  /** What the gate says: the kill switch first, then the lock with its own reason if it has one, then the mode. */
  lemma GateSays(mode: Mode, lock: Lock, riskApproved: bool, killSwitch: bool)
    ensures var d := Decide(mode, lock, riskApproved, killSwitch);
            var locked := lock.enabled && mode in {LiveShadow, LiveSmallAuto};
            && (killSwitch ==> d.reason == "kill_switch_active")
            && (!killSwitch && locked ==>
                  d.reason == match lock.reason
                              case None => "live_trading_lock_enabled"
                              case Some(x) => if x == "" then "live_trading_lock_enabled" else x)
            && (!killSwitch && mode == Paused ==> d.reason == "mode_paused")
            && (!killSwitch && mode == PaperAuto ==>
                  d.reason == if riskApproved then "paper_auto_approved" else "risk_rejected")
            && (!killSwitch && !locked && mode == LiveShadow ==> d.reason == "live_shadow_approved")
            && (!killSwitch && !locked && mode == LiveSmallAuto ==>
                  d.reason == "live_small_auto_requires_explicit_unlock")
  {}

  // ----- mode transitions -----

  datatype Transition = Transition(allowed: bool, reason: string)

  function ValidateModeTransition(from: Mode, to: Mode, lockEnabled: bool, allowLiveUnlock: bool): Transition {
    if from == to then Transition(true, "same_mode")
    else if from == Paused && to == LiveSmallAuto
    then Transition(false, "blocked: cannot transition directly from paused to live_small_auto")
    else if from == PaperAuto && to == LiveSmallAuto
    then Transition(false, "blocked: must transition through live_shadow first")
    else if to == LiveSmallAuto then
      if !allowLiveUnlock then Transition(false, "blocked: live_small_auto requires explicit unlock")
      else if !lockEnabled then Transition(false, "blocked: live_small_auto requires live_trading_lock enabled")
      else Transition(true, "live_small_auto_unlocked")
    else Transition(true, "transition_allowed")
  }

  /** The transition guard stops only ways into live_small_auto: all but the one from live_shadow with the unlock
      and the lock on. */
  lemma TransitionIff(from: Mode, to: Mode, lockEnabled: bool, unlock: bool)
    ensures ValidateModeTransition(from, to, lockEnabled, unlock).allowed
       <==> from == to || to != LiveSmallAuto || (from == LiveShadow && unlock && lockEnabled)
  {}

  /** What it says. */
  lemma OpenTransition(from: Mode, to: Mode, lockEnabled: bool, unlock: bool)
    requires from == to || to != LiveSmallAuto
    ensures ValidateModeTransition(from, to, lockEnabled, unlock).reason
         == if from == to then "same_mode" else "transition_allowed"
  {}

  lemma TransitionFromPaused(lockEnabled: bool, unlock: bool)
    ensures ValidateModeTransition(Paused, LiveSmallAuto, lockEnabled, unlock)
         == Transition(false, "blocked: cannot transition directly from paused to live_small_auto")
  {}

  lemma TransitionFromPaper(lockEnabled: bool, unlock: bool)
    ensures ValidateModeTransition(PaperAuto, LiveSmallAuto, lockEnabled, unlock)
         == Transition(false, "blocked: must transition through live_shadow first")
  {}

  lemma TransitionFromShadow(lockEnabled: bool, unlock: bool)
    ensures ValidateModeTransition(LiveShadow, LiveSmallAuto, lockEnabled, unlock).reason
         == if !unlock then "blocked: live_small_auto requires explicit unlock"
            else if !lockEnabled then "blocked: live_small_auto requires live_trading_lock enabled"
            else "live_small_auto_unlocked"
  {}

  // ----- pre-flight -----

  datatype CheckCode = ApiKey | ApiSecret | SymbolWhitelist | LiveTradingLock | CircuitBreaker

  datatype Check = Check(code: CheckCode, pass: bool)

  datatype BlockedCode =
    | KeyMissing | SecretMissing | SymbolNotWhitelisted | LockEnabled | RiskGlobalPause | RiskEmergencyStop

  datatype PreFlight = PreFlight(passed: bool, blocked: Option<BlockedCode>, checks: seq<Check>)

  /** The surroundings a pre-flight reads; symbols are already upper-cased, and a key counts as
      present only when it is not blank. */
  datatype Env = Env(hasKey: bool, hasSecret: bool, allowed: seq<string>, risk: RiskState)

  function BlockedFor(code: CheckCode, risk: RiskState): BlockedCode {
    match code
    case ApiKey => KeyMissing
    case ApiSecret => SecretMissing
    case SymbolWhitelist => SymbolNotWhitelisted
    case LiveTradingLock => LockEnabled
    case CircuitBreaker => if risk == GlobalPause then RiskGlobalPause else RiskEmergencyStop
  }

  function Checks(symbol: string, lock: Lock, env: Env): seq<Check> {
    [Check(ApiKey, env.hasKey), Check(ApiSecret, env.hasSecret),
     Check(SymbolWhitelist, symbol in env.allowed), Check(LiveTradingLock, !lock.enabled),
     Check(CircuitBreaker, env.risk != GlobalPause && env.risk != EmergencyStop)]
  }

  function FirstFailure(checks: seq<Check>, risk: RiskState): Option<BlockedCode> {
    if |checks| == 0 then None
    else if !checks[0].pass then Some(BlockedFor(checks[0].code, risk))
    else FirstFailure(checks[1..], risk)
  }

  /** All checks run; the first failing one names the block, and the suite passes exactly when every
      condition holds. */
  method RunPreFlight(symbol: string, lock: Lock, env: Env) returns (r: PreFlight)
    ensures r.checks == [Check(ApiKey, env.hasKey), Check(ApiSecret, env.hasSecret),
                         Check(SymbolWhitelist, symbol in env.allowed), Check(LiveTradingLock, !lock.enabled),
                         Check(CircuitBreaker, env.risk != GlobalPause && env.risk != EmergencyStop)]
    ensures r.blocked == FirstFailure(r.checks, env.risk)
    ensures r.passed <==> r.blocked == None
    ensures r.passed <==> env.hasKey && env.hasSecret && symbol in env.allowed && !lock.enabled
                          && env.risk != GlobalPause && env.risk != EmergencyStop
  {
    var checks := [Check(ApiKey, env.hasKey), Check(ApiSecret, env.hasSecret)];
    checks := checks + [Check(SymbolWhitelist, symbol in env.allowed)];
    checks := checks + [Check(LiveTradingLock, !lock.enabled)];
    checks := checks + [Check(CircuitBreaker, env.risk != GlobalPause && env.risk != EmergencyStop)];
    assert checks == Checks(symbol, lock, env);
    var blocked: Option<BlockedCode> := None;
    var i := 0;
    while i < |checks|
      invariant 0 <= i <= |checks|
      invariant FirstFailure(checks, env.risk) == FirstFailure(checks[i..], env.risk)
      invariant forall j :: 0 <= j < i ==> checks[j].pass
    {
      if !checks[i].pass {
        blocked := Some(BlockedFor(checks[i].code, env.risk));
        break;
      }
      i := i + 1;
    }
    var allPass := forall c :: c in checks ==> c.pass;
    PassedIff(symbol, lock, env);
    r := PreFlight(blocked == None && allPass, blocked, checks);
  }

  lemma FailureStep(check: Check, rest: seq<Check>, risk: RiskState)
    ensures FirstFailure([check] + rest, risk) == if check.pass then FirstFailure(rest, risk)
                                                  else Some(BlockedFor(check.code, risk))
  {
    assert ([check] + rest)[1..] == rest;
  }

  /** The block in the order of the checks: key, secret, symbol, lock, and the risk state with its own name. */
  lemma BlockIs(symbol: string, lock: Lock, env: Env)
    ensures FirstFailure(Checks(symbol, lock, env), env.risk)
         == if !env.hasKey then Some(KeyMissing)
            else if !env.hasSecret then Some(SecretMissing)
            else if symbol !in env.allowed then Some(SymbolNotWhitelisted)
            else if lock.enabled then Some(LockEnabled)
            else if env.risk == GlobalPause then Some(RiskGlobalPause)
            else if env.risk == EmergencyStop then Some(RiskEmergencyStop)
            else None
  {
    var cs := Checks(symbol, lock, env);
    assert cs == [cs[0]] + ([cs[1]] + ([cs[2]] + ([cs[3]] + ([cs[4]] + []))));
    FailureStep(cs[0], [cs[1]] + ([cs[2]] + ([cs[3]] + ([cs[4]] + []))), env.risk);
    FailureStep(cs[1], [cs[2]] + ([cs[3]] + ([cs[4]] + [])), env.risk);
    FailureStep(cs[2], [cs[3]] + ([cs[4]] + []), env.risk);
    FailureStep(cs[3], [cs[4]] + [], env.risk);
    FailureStep(cs[4], [], env.risk);
  }

  predicate PreFlightPasses(symbol: string, lock: Lock, env: Env) {
    FirstFailure(Checks(symbol, lock, env), env.risk) == None
  }

  lemma PassedIff(symbol: string, lock: Lock, env: Env)
    ensures PreFlightPasses(symbol, lock, env)
       <==> env.hasKey && env.hasSecret && symbol in env.allowed && !lock.enabled
            && env.risk != GlobalPause && env.risk != EmergencyStop
    ensures PreFlightPasses(symbol, lock, env) <==> forall c :: c in Checks(symbol, lock, env) ==> c.pass
  {
    var cs := Checks(symbol, lock, env);
    NoFailure(cs, env.risk);
    assert cs[0] in cs && cs[1] in cs && cs[2] in cs && cs[3] in cs && cs[4] in cs;
  }

  lemma {:induction false} NoFailure(checks: seq<Check>, risk: RiskState)
    ensures FirstFailure(checks, risk) == None <==> forall c :: c in checks ==> c.pass
  {
    if |checks| != 0 {
      NoFailure(checks[1..], risk);
      assert checks == [checks[0]] + checks[1..];
      assert checks[0] in checks;
    }
  }

  /** The transition guard and the pre-flight disagree about the lock: over one lock snapshot no
      change into live_small_auto can satisfy both. */
  lemma GuardsContradict(from: Mode, lock: Lock, unlock: bool, symbol: string, env: Env)
    requires from != LiveSmallAuto
    ensures !(ValidateModeTransition(from, LiveSmallAuto, lock.enabled, unlock).allowed
              && PreFlightPasses(symbol, lock, env))
  {
    PassedIff(symbol, lock, env);
  }
}
