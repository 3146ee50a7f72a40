/** trading/dashboard_api/routes_runtime.py: mode and lock requests against two database cells, split into
    their reads and writes so that requests and trading cycles interleave. */
module ControlPlane {
  import opened Prelude
  import opened Risk
  import opened Gate

  datatype ControlEvent =
    | PreflightBlocked(symbol: string, code: BlockedCode)
    | ModeChanged(before: Mode, after: Mode)
    | LockChanged(beforeEnabled: bool, afterEnabled: bool)

  /** The two control cells and the event log. */
  datatype Cells = Cells(mode: Mode, lock: Lock, log: seq<ControlEvent>)

  /** The symbol is already stripped and upper-cased; a missing one is empty. */
  datatype ModeRequest = ModeRequest(to: Mode, allowLiveUnlock: bool, symbol: string, dryRun: bool)

  /** What a request finds outside the cells: an unreadable configuration or risk state is None. */
  datatype Surroundings = Surroundings(allowed: Option<seq<string>>, risk: Option<RiskState>, hasKey: bool,
                                       hasSecret: bool)

  datatype Reason =
    | Guarded(text: string)
    | ConfigUnavailable | SymbolRequired | RiskUnavailable
    | PreFlightFailed(code: BlockedCode)
    | Unavailable

  datatype Response = Response(success: bool, mode: Mode, reason: Reason)

  const FAILED := Response(false, PaperAuto, Unavailable)

  /** Without a reason of its own, a lock that was set answers "ok". */
  datatype LockResponse = LockResponse(success: bool, enabled: bool, reason: string)

  const LOCK_FAILED := LockResponse(false, false, "blocked: unavailable")

  // ----- the decision of a mode request -----

  datatype Verdict = Reply(response: Response) | Refuse(code: BlockedCode) | Commit(reason: string)

  /** What a request decides about the mode and the lock it has read. */
  function Judge(r: ModeRequest, e: Surroundings, mode: Mode, lock: Lock): Verdict {
    var guard := ValidateModeTransition(mode, r.to, lock.enabled, r.allowLiveUnlock);
    if mode == r.to then Reply(Response(true, mode, Guarded("same_mode")))
    else if !guard.allowed then Reply(Response(false, mode, Guarded(guard.reason)))
    else if r.to == LiveSmallAuto then JudgeLive(r, e, mode, lock, guard.reason)
    else Settle(r, mode, guard.reason)
  }

  function JudgeLive(r: ModeRequest, e: Surroundings, mode: Mode, lock: Lock, reason: string): Verdict {
    if e.allowed == None then Reply(Response(false, mode, ConfigUnavailable))
    else if r.symbol == "" then Reply(Response(false, mode, SymbolRequired))
    else if e.risk == None then Reply(Response(false, mode, RiskUnavailable))
    else match Failure(r, lock, Env(e.hasKey, e.hasSecret, e.allowed.value, e.risk.value))
      case Some(code) => Refuse(code)
      case None => Settle(r, mode, reason)
  }

  function Settle(r: ModeRequest, mode: Mode, reason: string): Verdict {
    if r.dryRun then Reply(Response(true, mode, Guarded(reason))) else Commit(reason)
  }

  /** The first failing pre-flight check. */
  function Failure(r: ModeRequest, lock: Lock, env: Env): Option<BlockedCode> {
    FirstFailure(Checks(r.symbol, lock, env), env.risk)
  }

  function FirstBlock(r: ModeRequest, e: Surroundings): BlockedCode
    requires e.allowed != None
  {
    if !e.hasKey then KeyMissing else if !e.hasSecret then SecretMissing
    else if r.symbol !in e.allowed.value then SymbolNotWhitelisted else LockEnabled
  }

  lemma LockedFailure(r: ModeRequest, lock: Lock, env: Env)
    requires lock.enabled
    ensures Failure(r, lock, env)
         == Some(if !env.hasKey then KeyMissing else if !env.hasSecret then SecretMissing
                 else if r.symbol !in env.allowed then SymbolNotWhitelisted else LockEnabled)
  {
    BlockIs(r.symbol, lock, env);
  }

  /** With the lock on, the pre-flight always fails. */
  lemma LockedJudgement(r: ModeRequest, e: Surroundings, mode: Mode, lock: Lock, reason: string)
    requires lock.enabled
    ensures !JudgeLive(r, e, mode, lock, reason).Commit?
    ensures JudgeLive(r, e, mode, lock, reason).Refuse? <==> e.allowed != None && r.symbol != "" && e.risk != None
    ensures JudgeLive(r, e, mode, lock, reason).Refuse? ==> JudgeLive(r, e, mode, lock, reason).code == FirstBlock(r, e)
  {
    if e.allowed != None && e.risk != None {
      LockedFailure(r, lock, Env(e.hasKey, e.hasSecret, e.allowed.value, e.risk.value));
    }
  }

  /** The transition guard asks for the lock to be on. */
  lemma GuardNeedsLock(mode: Mode, lock: Lock, unlock: bool)
    requires mode != LiveSmallAuto
    ensures ValidateModeTransition(mode, LiveSmallAuto, lock.enabled, unlock).allowed
            <==> mode == LiveShadow && unlock && lock.enabled
  {
    TransitionIff(mode, LiveSmallAuto, lock.enabled, unlock);
  }

  lemma JudgeLiveMode(r: ModeRequest, e: Surroundings, mode: Mode, lock: Lock)
    requires r.to == LiveSmallAuto && mode != LiveSmallAuto
    ensures !Judge(r, e, mode, lock).Commit?
    ensures Judge(r, e, mode, lock).Refuse?
            <==> mode == LiveShadow && r.allowLiveUnlock && lock.enabled
                 && e.allowed != None && r.symbol != "" && e.risk != None
    ensures Judge(r, e, mode, lock).Refuse? ==> Judge(r, e, mode, lock).code == FirstBlock(r, e)
  {
    GuardNeedsLock(mode, lock, r.allowLiveUnlock);
    if lock.enabled {
      LockedJudgement(r, e, mode, lock, ValidateModeTransition(mode, r.to, lock.enabled, r.allowLiveUnlock).reason);
    }
  }

  /** A request writes the mode if and only if it asks for a different mode other than live_small_auto and is
      not a dry run. */
  lemma CommitIff(r: ModeRequest, e: Surroundings, mode: Mode, lock: Lock)
    ensures Judge(r, e, mode, lock).Commit? <==> r.to != mode && r.to != LiveSmallAuto && !r.dryRun
  {
    if r.to == LiveSmallAuto && mode != LiveSmallAuto { JudgeLiveMode(r, e, mode, lock); }
  }

  /** A request logs preflight_blocked if and only if it gets as far as the pre-flight, dry run or not; and
      since that takes the lock to be on, the block is never blamed on the risk state. */
  lemma RefuseIff(r: ModeRequest, e: Surroundings, mode: Mode, lock: Lock)
    ensures Judge(r, e, mode, lock).Refuse?
            <==> mode == LiveShadow && r.to == LiveSmallAuto && r.allowLiveUnlock && lock.enabled
                 && e.allowed != None && r.symbol != "" && e.risk != None
    ensures Judge(r, e, mode, lock).Refuse? ==> Judge(r, e, mode, lock).code == FirstBlock(r, e)
  {
    if r.to == LiveSmallAuto && mode != LiveSmallAuto { JudgeLiveMode(r, e, mode, lock); }
  }

  /** What a request decides from the mode and the lock it has read: a change that does not go to live_small_auto
      is always allowed ... */
  lemma JudgeElsewhere(r: ModeRequest, e: Surroundings, mode: Mode, lock: Lock)
    requires r.to == mode || r.to != LiveSmallAuto
    ensures Judge(r, e, mode, lock)
         == if r.to == mode then Reply(Response(true, mode, Guarded("same_mode")))
            else if r.dryRun then Reply(Response(true, mode, Guarded("transition_allowed")))
            else Commit("transition_allowed")
  {
    OpenTransition(mode, r.to, lock.enabled, r.allowLiveUnlock);
    TransitionIff(mode, r.to, lock.enabled, r.allowLiveUnlock);
  }

  /** ... one that does is refused by the guard from anywhere but live_shadow with the unlock and the lock on ... */
  lemma JudgeGuarded(r: ModeRequest, e: Surroundings, mode: Mode, lock: Lock)
    requires r.to == LiveSmallAuto && mode != LiveSmallAuto
    requires !(mode == LiveShadow && r.allowLiveUnlock && lock.enabled)
    ensures Judge(r, e, mode, lock)
         == Reply(Response(false, mode,
                           Guarded(ValidateModeTransition(mode, LiveSmallAuto, lock.enabled,
                                                          r.allowLiveUnlock).reason)))
  {
    TransitionIff(mode, r.to, lock.enabled, r.allowLiveUnlock);
  }

  /** ... and then by the first input that is missing or, since the lock is on, by the pre-flight. */
  lemma JudgeUnlocked(r: ModeRequest, e: Surroundings, lock: Lock)
    requires r.to == LiveSmallAuto && r.allowLiveUnlock && lock.enabled
    ensures Judge(r, e, LiveShadow, lock)
         == if e.allowed == None then Reply(Response(false, LiveShadow, ConfigUnavailable))
            else if r.symbol == "" then Reply(Response(false, LiveShadow, SymbolRequired))
            else if e.risk == None then Reply(Response(false, LiveShadow, RiskUnavailable))
            else Refuse(if !e.hasKey then KeyMissing else if !e.hasSecret then SecretMissing
                        else if r.symbol !in e.allowed.value then SymbolNotWhitelisted else LockEnabled)
  {
    TransitionIff(LiveShadow, r.to, lock.enabled, r.allowLiveUnlock);
    if e.allowed != None && e.risk != None {
      LockedFailure(r, lock, Env(e.hasKey, e.hasSecret, e.allowed.value, e.risk.value));
    }
  }

  // ----- processes -----

  datatype ModePc =
    | ModeBegin
    | ModeRead(mode: Mode)
    | BothRead(mode: Mode, lock: Lock)
    | ToRefuse(mode: Mode, code: BlockedCode)
    | ToWrite(reason: string)
    | ToOverwrite(reason: string, before: Mode)
    | Written(reason: string, before: Mode)
    | ToLog(reason: string, before: Mode, after: Mode)
    | Logged(wrote: bool, response: Response)   // the event is committed, the answer not yet given
    | ModeDone(response: Response)

  datatype LockPc =
    | LockBegin
    | LockRead(before: bool)
    | LockWritten(before: bool)
    | LockToLog(before: bool, after: Lock)
    | LockLogged(after: Lock)
    | LockDone(answer: LockResponse)

  datatype CyclePc = CycleBegin | CycleMode(mode: Mode) | CycleDecided(decision: GateDecision) | CycleFailed

  datatype Process =
    | ModeRun(request: ModeRequest, around: Surroundings, pc: ModePc)
    | LockRun(lock: Lock, lockPc: LockPc)
    | CycleRun(riskApproved: bool, killSwitch: bool, cyclePc: CyclePc)

  datatype Moved = Moved(cells: Cells, process: Process)

  /** Where a process goes from its verdict. */
  function AfterVerdict(mode: Mode, v: Verdict): ModePc {
    match v
    case Reply(response) => ModeDone(response)
    case Refuse(code) => ToRefuse(mode, code)
    case Commit(reason) => ToWrite(reason)
  }

  function ModeStep(c: Cells, r: ModeRequest, e: Surroundings, pc: ModePc): (Cells, ModePc) {
    match pc
    case ModeBegin => (c, ModeRead(c.mode))
    case ModeRead(mode) => (c, BothRead(mode, c.lock))
    case BothRead(mode, lock) => (c, AfterVerdict(mode, Judge(r, e, mode, lock)))
    case ToRefuse(mode, code) =>
      (c.(log := c.log + [PreflightBlocked(r.symbol, code)]),
       Logged(false, Response(false, mode, PreFlightFailed(code))))
    case ToWrite(reason) => (c, ToOverwrite(reason, c.mode))
    case ToOverwrite(reason, before) => (c.(mode := r.to), Written(reason, before))
    case Written(reason, before) => (c, ToLog(reason, before, c.mode))
    case ToLog(reason, before, after) =>
      (c.(log := c.log + [ModeChanged(before, after)]), Logged(true, Response(true, after, Guarded(reason))))
    case Logged(_, response) => (c, ModeDone(response))
    case ModeDone(_) => (c, pc)
  }

  function LockAnswer(lock: Lock): LockResponse { LockResponse(true, lock.enabled, ReasonOr(lock.reason, "ok")) }

  function LockStep(c: Cells, lock: Lock, pc: LockPc): (Cells, LockPc) {
    match pc
    case LockBegin => (c, LockRead(c.lock.enabled))
    case LockRead(before) => (c.(lock := lock), LockWritten(before))
    case LockWritten(before) => (c, LockToLog(before, c.lock))
    case LockToLog(before, after) => (c.(log := c.log + [LockChanged(before, after.enabled)]), LockLogged(after))
    case LockLogged(after) => (c, LockDone(LockAnswer(after)))
    case LockDone(_) => (c, pc)
  }

  /** A trading cycle reads the mode at its start and the lock only when it asks the gate. */
  function CycleStep(c: Cells, riskApproved: bool, killSwitch: bool, pc: CyclePc): CyclePc {
    match pc
    case CycleBegin => CycleMode(c.mode)
    case CycleMode(mode) => CycleDecided(Decide(mode, c.lock, riskApproved, killSwitch))
    case CycleDecided(_) | CycleFailed => pc
  }

  function ProcessStep(c: Cells, p: Process): Moved {
    match p
    case ModeRun(r, e, pc) => var (d, next) := ModeStep(c, r, e, pc); Moved(d, ModeRun(r, e, next))
    case LockRun(lock, pc) => var (d, next) := LockStep(c, lock, pc); Moved(d, LockRun(lock, next))
    case CycleRun(risk, kill, pc) => Moved(c, CycleRun(risk, kill, CycleStep(c, risk, kill, pc)))
  }

  predicate Finished(p: Process) {
    match p
    case ModeRun(_, _, pc) => pc.ModeDone?
    case LockRun(_, pc) => pc.LockDone?
    case CycleRun(_, _, pc) => pc.CycleDecided? || pc.CycleFailed?
  }

  /** An exception anywhere in an unfinished process: what it has written stays written. */
  function Aborted(p: Process): Process {
    if Finished(p) then p
    else match p
      case ModeRun(r, e, _) => ModeRun(r, e, ModeDone(FAILED))
      case LockRun(lock, _) => LockRun(lock, LockDone(LOCK_FAILED))
      case CycleRun(risk, kill, _) => CycleRun(risk, kill, CycleFailed)
  }

  predicate Begins(p: Process) {
    match p
    case ModeRun(_, _, pc) => pc == ModeBegin
    case LockRun(_, pc) => pc == LockBegin
    case CycleRun(_, _, pc) => pc == CycleBegin
  }

  // ----- any number of processes -----

  datatype System = System(cells: Cells, processes: map<nat, Process>)

  datatype Action = Spawn(id: nat, process: Process) | Advance(id: nat) | Abort(id: nat)

  function Next(s: System, a: Action): System {
    match a
    case Spawn(id, p) =>
      if id !in s.processes && Begins(p) then s.(processes := s.processes[id := p]) else s
    case Advance(id) =>
      if id in s.processes then
        var m := ProcessStep(s.cells, s.processes[id]);
        System(m.cells, s.processes[id := m.process])
      else s
    case Abort(id) =>
      if id in s.processes then s.(processes := s.processes[id := Aborted(s.processes[id])]) else s
  }

  function Run(c: Cells, actions: seq<Action>): System {
    if |actions| == 0 then System(c, map[]) else Next(Run(c, actions[..|actions| - 1]), actions[|actions| - 1])
  }

  // ----- live_small_auto is unreachable -----

  predicate ModeSafe(r: ModeRequest, pc: ModePc) {
    match pc
    case ModeRead(mode) => mode != LiveSmallAuto
    case BothRead(mode, _) => mode != LiveSmallAuto
    case ToRefuse(mode, code) => mode != LiveSmallAuto && code != RiskGlobalPause && code != RiskEmergencyStop
    case ToWrite(_) => r.to != LiveSmallAuto
    case ToOverwrite(_, before) => r.to != LiveSmallAuto && before != LiveSmallAuto
    case Written(_, before) => before != LiveSmallAuto
    case ToLog(_, before, after) => before != LiveSmallAuto && after != LiveSmallAuto
    case Logged(_, response) => response.mode != LiveSmallAuto
    case ModeDone(response) => response.mode != LiveSmallAuto
    case ModeBegin => true
  }

  /** A decision the gate takes in one of the three other modes. */
  ghost predicate DecisionSafe(d: GateDecision, riskApproved: bool, killSwitch: bool) {
    exists lock :: d == Decide(d.mode, lock, riskApproved, killSwitch) && d.mode != LiveSmallAuto
  }

  ghost predicate ProcessSafe(p: Process) {
    match p
    case ModeRun(r, _, pc) => ModeSafe(r, pc)
    case LockRun(_, _) => true
    case CycleRun(risk, kill, pc) =>
      (pc.CycleMode? ==> pc.mode != LiveSmallAuto) && (pc.CycleDecided? ==> DecisionSafe(pc.decision, risk, kill))
  }

  predicate EventSafe(e: ControlEvent) {
    && (e.ModeChanged? ==> e.before != LiveSmallAuto && e.after != LiveSmallAuto)
    && (e.PreflightBlocked? ==> e.code != RiskGlobalPause && e.code != RiskEmergencyStop)
  }

  predicate LogSafe(log: seq<ControlEvent>, from: nat) {
    from <= |log| && forall n :: from <= n < |log| ==> EventSafe(log[n])
  }

  ghost predicate Safe(from: nat, s: System) {
    && s.cells.mode != LiveSmallAuto && LogSafe(s.cells.log, from)
    && forall id :: id in s.processes ==> ProcessSafe(s.processes[id])
  }

  lemma ModeStepSafe(c: Cells, r: ModeRequest, e: Surroundings, pc: ModePc, from: nat)
    requires c.mode != LiveSmallAuto && LogSafe(c.log, from) && ModeSafe(r, pc)
    ensures var (d, next) := ModeStep(c, r, e, pc);
            d.mode != LiveSmallAuto && LogSafe(d.log, from) && ModeSafe(r, next)
  {
    if pc.BothRead? {
      CommitIff(r, e, pc.mode, pc.lock);
      RefuseIff(r, e, pc.mode, pc.lock);
    }
  }

  lemma ProcessStepSafe(c: Cells, p: Process, from: nat)
    requires c.mode != LiveSmallAuto && LogSafe(c.log, from) && ProcessSafe(p)
    ensures var m := ProcessStep(c, p);
            m.cells.mode != LiveSmallAuto && LogSafe(m.cells.log, from) && ProcessSafe(m.process)
  {
    match p
    case ModeRun(r, e, pc) => ModeStepSafe(c, r, e, pc, from);
    case LockRun(_, _) =>
    case CycleRun(risk, kill, pc) =>
      if pc.CycleMode? {
        var d := Decide(pc.mode, c.lock, risk, kill);
        assert d.mode == pc.mode;
        assert DecisionSafe(d, risk, kill);
      }
  }

  lemma NextSafe(from: nat, s: System, a: Action)
    requires Safe(from, s)
    ensures Safe(from, Next(s, a))
  {
    if a.Advance? && a.id in s.processes { ProcessStepSafe(s.cells, s.processes[a.id], from); }
  }

  /** From any other mode no interleaving of requests, whatever their flags and wherever they abort, ever
      makes the mode live_small_auto; and no log entry, response or gate decision ever mentions it. */
  lemma {:induction false} NeverLiveSmallAuto(c: Cells, actions: seq<Action>)
    requires c.mode != LiveSmallAuto
    ensures Safe(|c.log|, Run(c, actions))
  {
    if |actions| != 0 {
      NeverLiveSmallAuto(c, actions[..|actions| - 1]);
      NextSafe(|c.log|, Run(c, actions[..|actions| - 1]), actions[|actions| - 1]);
    }
  }

  /** So every gate decision of the run is paper in paper_auto, shadow in live_shadow, or a block. */
  lemma DecisionsOverRun(c: Cells, actions: seq<Action>, id: nat)
    requires c.mode != LiveSmallAuto && id in Run(c, actions).processes
    requires var p := Run(c, actions).processes[id]; p.CycleRun? && p.cyclePc.CycleDecided?
    ensures var p := Run(c, actions).processes[id];
            var d := p.cyclePc.decision;
            && (d.route == PaperRoute <==> d.mode == PaperAuto && p.riskApproved && !p.killSwitch)
            && (d.route == ShadowRoute ==> d.mode == LiveShadow && !p.killSwitch)
            && (d.allowed <==> d.route != BlockedRoute) && d.mode in {Paused, PaperAuto, LiveShadow}
  {
    NeverLiveSmallAuto(c, actions);
    var p := Run(c, actions).processes[id];
    assert ProcessSafe(p);
    var d := p.cyclePc.decision;
    var lock :| d == Decide(d.mode, lock, p.riskApproved, p.killSwitch);
    GateRoutes(d.mode, lock, p.riskApproved, p.killSwitch);
  }

  // ----- the endpoints -----

  function Rank(p: Process): nat {
    match p
    case ModeRun(_, _, pc) =>
      (match pc case ModeBegin => 8 case ModeRead(_) => 7 case BothRead(_, _) => 6 case ToRefuse(_, _) => 2
                case ToWrite(_) => 5 case ToOverwrite(_, _) => 4 case Written(_, _) => 3 case ToLog(_, _, _) => 2
                case Logged(_, _) => 1 case ModeDone(_) => 0)
    case LockRun(_, pc) =>
      (match pc case LockBegin => 5 case LockRead(_) => 4 case LockWritten(_) => 3 case LockToLog(_, _) => 2
                case LockLogged(_) => 1 case LockDone(_) => 0)
    case CycleRun(_, _, pc) =>
      (match pc case CycleBegin => 2 case CycleMode(_) => 1 case CycleDecided(_) => 0 case CycleFailed => 0)
  }

  lemma StepRanks(c: Cells, p: Process)
    ensures Rank(p) != 0 ==> Rank(ProcessStep(c, p).process) < Rank(p)
  {}

  /** A process run to its end with nothing in between. */
  function Alone(c: Cells, p: Process): Moved
    decreases Rank(p)
  {
    if Rank(p) == 0 then Moved(c, p)
    else
      StepRanks(c, p);
      var m := ProcessStep(c, p);
      Alone(m.cells, m.process)
  }

  lemma AloneStep(c: Cells, p: Process)
    requires Rank(p) != 0
    ensures Alone(c, p) == Alone(ProcessStep(c, p).cells, ProcessStep(c, p).process)
  {}

  /** What a mode request does alone, by its verdict. */
  function Effect(c: Cells, r: ModeRequest, v: Verdict): (Cells, Response) {
    match v
    case Reply(response) => (c, response)
    case Refuse(code) =>
      (c.(log := c.log + [PreflightBlocked(r.symbol, code)]), Response(false, c.mode, PreFlightFailed(code)))
    case Commit(reason) =>
      (c.(mode := r.to, log := c.log + [ModeChanged(c.mode, r.to)]), Response(true, r.to, Guarded(reason)))
  }

  lemma AloneCommit(c: Cells, r: ModeRequest, e: Surroundings, reason: string)
    ensures Alone(c, ModeRun(r, e, ToWrite(reason)))
         == Moved(Effect(c, r, Commit(reason)).0, ModeRun(r, e, ModeDone(Effect(c, r, Commit(reason)).1)))
  {
    var d := c.(mode := r.to);
    AloneStep(c, ModeRun(r, e, ToWrite(reason)));
    AloneStep(c, ModeRun(r, e, ToOverwrite(reason, c.mode)));
    AloneStep(d, ModeRun(r, e, Written(reason, c.mode)));
    AloneStep(d, ModeRun(r, e, ToLog(reason, c.mode, r.to)));
    var logged := d.(log := d.log + [ModeChanged(c.mode, r.to)]);
    AloneStep(logged, ModeRun(r, e, Logged(true, Response(true, r.to, Guarded(reason)))));
  }

  lemma AloneJudged(c: Cells, r: ModeRequest, e: Surroundings)
    ensures Alone(c, ModeRun(r, e, ModeBegin)) == Alone(c, ModeRun(r, e, BothRead(c.mode, c.lock)))
  {
    AloneStep(c, ModeRun(r, e, ModeBegin));
    AloneStep(c, ModeRun(r, e, ModeRead(c.mode)));
  }

  lemma AloneSettled(c: Cells, r: ModeRequest, e: Surroundings, v: Verdict)
    ensures Alone(c, ModeRun(r, e, AfterVerdict(c.mode, v)))
         == Moved(Effect(c, r, v).0, ModeRun(r, e, ModeDone(Effect(c, r, v).1)))
  {
    match v
    case Reply(_) =>
    case Refuse(code) =>
      AloneStep(c, ModeRun(r, e, ToRefuse(c.mode, code)));
      AloneStep(Effect(c, r, v).0, ModeRun(r, e, Logged(false, Effect(c, r, v).1)));
    case Commit(reason) => AloneCommit(c, r, e, reason);
  }

  lemma AloneVerdict(c: Cells, r: ModeRequest, e: Surroundings)
    ensures var done := Effect(c, r, Judge(r, e, c.mode, c.lock));
            Alone(c, ModeRun(r, e, ModeBegin)) == Moved(done.0, ModeRun(r, e, ModeDone(done.1)))
  {
    AloneJudged(c, r, e);
    AloneStep(c, ModeRun(r, e, BothRead(c.mode, c.lock)));
    AloneSettled(c, r, e, Judge(r, e, c.mode, c.lock));
  }

  lemma AloneLock(c: Cells, lock: Lock)
    ensures Alone(c, LockRun(lock, LockBegin))
         == Moved(c.(lock := lock, log := c.log + [LockChanged(c.lock.enabled, lock.enabled)]),
                  LockRun(lock, LockDone(LockAnswer(lock))))
  {
    var d := c.(lock := lock);
    AloneStep(c, LockRun(lock, LockBegin));
    AloneStep(c, LockRun(lock, LockRead(c.lock.enabled)));
    AloneStep(d, LockRun(lock, LockWritten(c.lock.enabled)));
    AloneStep(d, LockRun(lock, LockToLog(c.lock.enabled, lock)));
    AloneStep(d.(log := d.log + [LockChanged(c.lock.enabled, lock.enabled)]), LockRun(lock, LockLogged(lock)));
  }

  class ControlStore {
    var mode: Mode
    var lock: Lock
    var log: seq<ControlEvent>

    constructor (c: Cells)
      ensures Snapshot() == c
    {
      mode, lock, log := c.mode, c.lock, c.log;
    }

    function Snapshot(): Cells
      reads this
    {
      Cells(mode, lock, log)
    }

    /** set_mode, uninterrupted, is its own process run alone. */
    method SetMode(r: ModeRequest, e: Surroundings) returns (response: Response)
      modifies this
      ensures Alone(old(Snapshot()), ModeRun(r, e, ModeBegin)) == Moved(Snapshot(), ModeRun(r, e, ModeDone(response)))
    {
      AloneVerdict(Snapshot(), r, e);
      var current, held := mode, lock;
      if current == r.to { return Response(true, current, Guarded("same_mode")); }
      var guard := ValidateModeTransition(current, r.to, held.enabled, r.allowLiveUnlock);
      if !guard.allowed { return Response(false, current, Guarded(guard.reason)); }
      if r.to == LiveSmallAuto {
        if e.allowed == None { return Response(false, current, ConfigUnavailable); }
        if r.symbol == "" { return Response(false, current, SymbolRequired); }
        if e.risk == None { return Response(false, current, RiskUnavailable); }
        var preflight := RunPreFlight(r.symbol, held, Env(e.hasKey, e.hasSecret, e.allowed.value, e.risk.value));
        if !preflight.passed {
          log := log + [PreflightBlocked(r.symbol, preflight.blocked.value)];
          return Response(false, current, PreFlightFailed(preflight.blocked.value));
        }
      }
      if r.dryRun { return Response(true, current, Guarded(guard.reason)); }
      var before := mode;
      mode := r.to;
      var after := mode;
      log := log + [ModeChanged(before, after)];
      return Response(true, after, Guarded(guard.reason));
    }

    /** set_live_lock, uninterrupted, is its own process run alone. */
    method SetLiveLock(requested: Lock) returns (response: LockResponse)
      modifies this
      ensures Alone(old(Snapshot()), LockRun(requested, LockBegin))
           == Moved(Snapshot(), LockRun(requested, LockDone(response)))
      ensures response.success && response.enabled == requested.enabled && lock == requested && mode == old(mode)
    {
      AloneLock(Snapshot(), requested);
      var before := lock.enabled;
      lock := requested;
      var after := lock;
      log := log + [LockChanged(before, after.enabled)];
      return LockResponse(true, after.enabled, ReasonOr(after.reason, "ok"));
    }
  }

  /** A successful change request that is not a dry run leaves the mode it asked for, if nothing interferes;
      a dry run never changes a cell, but can log. */
  lemma AloneEffect(c: Cells, r: ModeRequest, e: Surroundings)
    ensures var m := Alone(c, ModeRun(r, e, ModeBegin));
            && m.cells.lock == c.lock
            && m.cells.mode == (if r.to != LiveSmallAuto && !r.dryRun then r.to else c.mode)
            && (m.cells.log != c.log
                <==> (r.to != c.mode && r.to != LiveSmallAuto && !r.dryRun) || Judge(r, e, c.mode, c.lock).Refuse?)
  {
    CommitIff(r, e, c.mode, c.lock);
    AloneVerdict(c, r, e);
  }

  // ----- an abort after n steps -----

  /** A process after n of its own steps with nothing in between. */
  function After(c: Cells, p: Process, n: nat): Moved {
    if n == 0 then Moved(c, p)
    else
      var m := After(c, p, n - 1);
      ProcessStep(m.cells, m.process)
  }

  lemma {:induction false} AfterStays(c: Cells, p: Process, m: nat, n: nat)
    requires m <= n && Finished(After(c, p, m).process)
    ensures After(c, p, n) == After(c, p, m)
  {
    if m < n { AfterStays(c, p, m, n - 1); }
  }

  /** The cells n steps into an uninterrupted request with this verdict: the fifth step writes the mode, the
      seventh logs that; the fourth logs a refusal. */
  function CellsAfter(c: Cells, r: ModeRequest, v: Verdict, n: nat): Cells {
    match v
    case Reply(_) => c
    case Refuse(code) => if n >= 4 then c.(log := c.log + [PreflightBlocked(r.symbol, code)]) else c
    case Commit(_) =>
      c.(mode := if n >= 5 then r.to else c.mode,
         log := c.log + if n >= 7 then [ModeChanged(c.mode, r.to)] else [])
  }

  /** How many steps it takes to the answer. */
  function StepsToAnswer(v: Verdict): nat {
    match v
    case Reply(_) => 3
    case Refuse(_) => 5
    case Commit(_) => 8
  }

  ghost predicate At(c: Cells, p: Process, n: nat, d: Cells, q: Process) { After(c, p, n) == Moved(d, q) }

  lemma AtNext(c: Cells, p: Process, n: nat, d: Cells, q: Process)
    requires At(c, p, n, d, q)
    ensures At(c, p, n + 1, ProcessStep(d, q).cells, ProcessStep(d, q).process)
  {}

  lemma AtVerdict(c: Cells, r: ModeRequest, e: Surroundings)
    ensures var p := ModeRun(r, e, ModeBegin);
            var v := Judge(r, e, c.mode, c.lock);
            At(c, p, 0, c, p) && At(c, p, 1, c, ModeRun(r, e, ModeRead(c.mode)))
            && At(c, p, 2, c, ModeRun(r, e, BothRead(c.mode, c.lock)))
            && At(c, p, 3, c, ModeRun(r, e, AfterVerdict(c.mode, v)))
  {
    var p := ModeRun(r, e, ModeBegin);
    AtNext(c, p, 0, c, p);
    AtNext(c, p, 1, c, ModeRun(r, e, ModeRead(c.mode)));
    AtNext(c, p, 2, c, ModeRun(r, e, BothRead(c.mode, c.lock)));
  }

  lemma AtRefused(c: Cells, r: ModeRequest, e: Surroundings, code: BlockedCode)
    requires Judge(r, e, c.mode, c.lock) == Refuse(code)
    ensures var p, answer := ModeRun(r, e, ModeBegin), Response(false, c.mode, PreFlightFailed(code));
            var d := c.(log := c.log + [PreflightBlocked(r.symbol, code)]);
            At(c, p, 4, d, ModeRun(r, e, Logged(false, answer))) && At(c, p, 5, d, ModeRun(r, e, ModeDone(answer)))
  {
    var p, answer := ModeRun(r, e, ModeBegin), Response(false, c.mode, PreFlightFailed(code));
    var d := c.(log := c.log + [PreflightBlocked(r.symbol, code)]);
    AtVerdict(c, r, e);
    AtNext(c, p, 3, c, ModeRun(r, e, ToRefuse(c.mode, code)));
    AtNext(c, p, 4, d, ModeRun(r, e, Logged(false, answer)));
  }

  lemma AtCommitted(c: Cells, r: ModeRequest, e: Surroundings, reason: string)
    requires Judge(r, e, c.mode, c.lock) == Commit(reason)
    ensures var p, answer := ModeRun(r, e, ModeBegin), Response(true, r.to, Guarded(reason));
            var d := c.(mode := r.to);
            var logged := d.(log := c.log + [ModeChanged(c.mode, r.to)]);
            && At(c, p, 4, c, ModeRun(r, e, ToOverwrite(reason, c.mode)))
            && At(c, p, 5, d, ModeRun(r, e, Written(reason, c.mode)))
            && At(c, p, 6, d, ModeRun(r, e, ToLog(reason, c.mode, r.to)))
            && At(c, p, 7, logged, ModeRun(r, e, Logged(true, answer)))
            && At(c, p, 8, logged, ModeRun(r, e, ModeDone(answer)))
  {
    var p, answer := ModeRun(r, e, ModeBegin), Response(true, r.to, Guarded(reason));
    var d := c.(mode := r.to);
    AtVerdict(c, r, e);
    AtNext(c, p, 3, c, ModeRun(r, e, ToWrite(reason)));
    AtNext(c, p, 4, c, ModeRun(r, e, ToOverwrite(reason, c.mode)));
    AtNext(c, p, 5, d, ModeRun(r, e, Written(reason, c.mode)));
    AtNext(c, p, 6, d, ModeRun(r, e, ToLog(reason, c.mode, r.to)));
    AtNext(c, p, 7, d.(log := c.log + [ModeChanged(c.mode, r.to)]), ModeRun(r, e, Logged(true, answer)));
  }

  /** Where an uninterrupted request is after any number of steps. */
  lemma ModeAfter(c: Cells, r: ModeRequest, e: Surroundings, n: nat)
    ensures var v, m := Judge(r, e, c.mode, c.lock), After(c, ModeRun(r, e, ModeBegin), n);
            m.cells == CellsAfter(c, r, v, n)
            && m.process.ModeRun? && m.process.request == r && m.process.around == e
            && (Finished(m.process) <==> n >= StepsToAnswer(v))
            && (Finished(m.process) ==> m.process.pc == ModeDone(Effect(c, r, v).1))
  {
    var v, p := Judge(r, e, c.mode, c.lock), ModeRun(r, e, ModeBegin);
    AtVerdict(c, r, e);
    assert c.log + [] == c.log;
    match v
    case Reply(_) => if n > 3 { AfterStays(c, p, 3, n); }
    case Refuse(code) => AtRefused(c, r, e, code); if n > 5 { AfterStays(c, p, 5, n); }
    case Commit(reason) => AtCommitted(c, r, e, reason); if n > 8 { AfterStays(c, p, 8, n); }
  }

  /** A request aborted after n of its steps, for every request and every n. The mode is another than before
      exactly if the request is for a change it may commit and n is at least 5; the log has grown exactly if its
      log step ran. The answer is the failure exactly if n is below the steps to the answer. */
  lemma AbortedRequest(c: Cells, r: ModeRequest, e: Surroundings, n: nat)
    ensures var v, m := Judge(r, e, c.mode, c.lock), After(c, ModeRun(r, e, ModeBegin), n);
            var p := Aborted(m.process);
            && m.cells.lock == c.lock
            && (m.cells.mode != c.mode <==> r.to != c.mode && r.to != LiveSmallAuto && !r.dryRun && n >= 5)
            && (m.cells.mode != c.mode ==> m.cells.mode == r.to)
            && (m.cells.log != c.log <==> (v.Commit? && n >= 7) || (v.Refuse? && n >= 4))
            && p.ModeRun?
            && p.pc == ModeDone(match v
                                case Reply(x) => if n >= 3 then x else Response(false, PaperAuto, Unavailable)
                                case Refuse(code) =>
                                  Response(false, if n >= 5 then c.mode else PaperAuto,
                                           if n >= 5 then PreFlightFailed(code) else Unavailable)
                                case Commit(reason) =>
                                  Response(n >= 8, if n >= 8 then r.to else PaperAuto,
                                           if n >= 8 then Guarded(reason) else Unavailable))
  {
    ModeAfter(c, r, e, n);
    CommitIff(r, e, c.mode, c.lock);
    var v := Judge(r, e, c.mode, c.lock);
    if v.Commit? { assert |c.log + [ModeChanged(c.mode, r.to)]| != |c.log|; }
    if v.Refuse? { assert |c.log + [PreflightBlocked(r.symbol, v.code)]| != |c.log|; }
  }

  /** So an answer without success leaves the mode alone exactly if it is not the failure of a committed change
      after its fifth step. */
  lemma UnsuccessfulIff(c: Cells, r: ModeRequest, e: Surroundings, n: nat)
    ensures var m := After(c, ModeRun(r, e, ModeBegin), n);
            var p := Aborted(m.process);
            p.ModeRun? && p.pc.ModeDone?
            && (!p.pc.response.success ==>
                  (m.cells.mode == c.mode
                   <==> !(r.to != c.mode && r.to != LiveSmallAuto && !r.dryRun && 5 <= n < 8)))
  {
    AbortedRequest(c, r, e, n);
    CommitIff(r, e, c.mode, c.lock);
  }

  lemma AtLock(c: Cells, lock: Lock)
    ensures var p, d := LockRun(lock, LockBegin), c.(lock := lock);
            var logged := d.(log := c.log + [LockChanged(c.lock.enabled, lock.enabled)]);
            && At(c, p, 1, c, LockRun(lock, LockRead(c.lock.enabled)))
            && At(c, p, 2, d, LockRun(lock, LockWritten(c.lock.enabled)))
            && At(c, p, 3, d, LockRun(lock, LockToLog(c.lock.enabled, lock)))
            && At(c, p, 4, logged, LockRun(lock, LockLogged(lock)))
            && At(c, p, 5, logged, LockRun(lock, LockDone(LockAnswer(lock))))
  {
    var p, d := LockRun(lock, LockBegin), c.(lock := lock);
    AtNext(c, p, 0, c, p);
    AtNext(c, p, 1, c, LockRun(lock, LockRead(c.lock.enabled)));
    AtNext(c, p, 2, d, LockRun(lock, LockWritten(c.lock.enabled)));
    AtNext(c, p, 3, d, LockRun(lock, LockToLog(c.lock.enabled, lock)));
    AtNext(c, p, 4, d.(log := c.log + [LockChanged(c.lock.enabled, lock.enabled)]), LockRun(lock, LockLogged(lock)));
  }

  /** A lock request aborted after n of its steps: the lock is the requested one exactly from the second step on
      (or if it was before), the change is logged exactly from the fourth, and the answer is a failure that
      shows the lock as off exactly before the fifth. */
  lemma AbortedLockRequest(c: Cells, lock: Lock, n: nat)
    ensures var m := After(c, LockRun(lock, LockBegin), n);
            && m.cells.mode == c.mode
            && m.cells.lock == (if n >= 2 then lock else c.lock)
            && m.cells.log == c.log + (if n >= 4 then [LockChanged(c.lock.enabled, lock.enabled)] else [])
            && Aborted(m.process)
               == LockRun(lock, LockDone(if n < 5 then LockResponse(false, false, "blocked: unavailable")
                                         else match lock.reason
                                           case None => LockResponse(true, lock.enabled, "ok")
                                           case Some(x) =>
                                             LockResponse(true, lock.enabled, if x == "" then "ok" else x)))
  {
    AtLock(c, lock);
    assert c.log + [] == c.log;
    if n > 5 { AfterStays(c, LockRun(lock, LockBegin), 5, n); }
  }

  // ----- a failed answer in any interleaving -----

  /** Where a process was when an exception hit it. */
  function AbortPoint(c: Cells, actions: seq<Action>, id: nat): Option<Process> {
    if |actions| == 0 then None
    else
      var front, a := actions[..|actions| - 1], actions[|actions| - 1];
      var s := Run(c, front);
      if a == Abort(id) && id in s.processes && !Finished(s.processes[id]) then Some(s.processes[id])
      else AbortPoint(c, front, id)
  }

  predicate Writes(p: Process) { (p.ModeRun? && p.pc.ToOverwrite?) || (p.LockRun? && p.lockPc.LockRead?) }

  /** Whether a process has taken the step that writes its cell. */
  function Wrote(c: Cells, actions: seq<Action>, id: nat): bool {
    if |actions| == 0 then false
    else
      var front, a := actions[..|actions| - 1], actions[|actions| - 1];
      var s := Run(c, front);
      Wrote(c, front, id) || (a == Advance(id) && id in s.processes && Writes(s.processes[id]))
  }

  /** Between its write and its answer. */
  predicate PastWrite(p: Process) {
    match p
    case ModeRun(_, _, pc) => pc.Written? || pc.ToLog? || (pc.Logged? && pc.wrote)
    case LockRun(_, pc) => pc.LockWritten? || pc.LockToLog? || pc.LockLogged?
    case CycleRun(_, _, _) => false
  }

  predicate HasFailed(p: Process) {
    match p
    case ModeRun(_, _, pc) => pc == ModeDone(FAILED)
    case LockRun(_, pc) => pc == LockDone(LOCK_FAILED)
    case CycleRun(_, _, pc) => pc == CycleFailed
  }

  /** No answer of a request that runs through looks like the failure. */
  predicate Answers(p: Process) {
    match p
    case ModeRun(_, _, pc) =>
      (pc.Logged? ==> !pc.response.reason.Unavailable?)
      && (pc.ModeDone? ==> pc.response == FAILED || !pc.response.reason.Unavailable?)
    case LockRun(_, pc) => pc.LockDone? ==> pc.answer == LOCK_FAILED || pc.answer.success
    case CycleRun(_, _, _) => true
  }

  ghost predicate Traced(c: Cells, actions: seq<Action>, id: nat) {
    var s, point, wrote := Run(c, actions), AbortPoint(c, actions, id), Wrote(c, actions, id);
    if id !in s.processes then point == None && !wrote
    else
      var p := s.processes[id];
      && Answers(p)
      && (point != None <==> HasFailed(p))
      && (point != None ==> (wrote <==> PastWrite(point.value)))
      && (!Finished(p) ==> (wrote <==> PastWrite(p)))
  }

  lemma ModeAnswers(c: Cells, p: Process)
    requires p.ModeRun? && Answers(p)
    ensures var q := ProcessStep(c, p).process; Answers(q) && (HasFailed(q) <==> HasFailed(p))
  {}

  lemma ModeWrites(c: Cells, p: Process)
    requires p.ModeRun?
    ensures var q := ProcessStep(c, p).process;
            !Finished(q) ==> !Finished(p) && (PastWrite(q) <==> PastWrite(p) || Writes(p))
  {}

  lemma LockTraces(c: Cells, p: Process)
    requires p.LockRun? && Answers(p)
    ensures var q := ProcessStep(c, p).process;
            && Answers(q) && (HasFailed(q) <==> HasFailed(p))
            && (!Finished(q) ==> !Finished(p) && (PastWrite(q) <==> PastWrite(p) || Writes(p)))
  {}

  lemma StepTraces(c: Cells, p: Process)
    requires Answers(p)
    ensures var q := ProcessStep(c, p).process;
            && Answers(q) && (HasFailed(q) <==> HasFailed(p))
            && (!Finished(q) ==> !Finished(p) && (PastWrite(q) <==> PastWrite(p) || Writes(p)))
  {
    match p
    case ModeRun(_, _, _) => ModeAnswers(c, p); ModeWrites(c, p);
    case LockRun(_, _) => LockTraces(c, p);
    case CycleRun(_, _, _) =>
  }

  lemma BeginTraces(p: Process)
    requires Begins(p)
    ensures Answers(p) && !HasFailed(p) && !PastWrite(p) && !Finished(p)
  {}

  lemma NextTraces(c: Cells, actions: seq<Action>, id: nat)
    requires |actions| != 0 && Traced(c, actions[..|actions| - 1], id)
    ensures Traced(c, actions, id)
  {
    var front, a := actions[..|actions| - 1], actions[|actions| - 1];
    var s := Run(c, front);
    match a
    case Spawn(i, p) => if i == id && Begins(p) { BeginTraces(p); }
    case Advance(i) => if i == id && id in s.processes { StepTraces(s.cells, s.processes[id]); }
    case Abort(_) =>
  }

  lemma {:induction false} AlwaysTraced(c: Cells, actions: seq<Action>, id: nat)
    ensures Traced(c, actions, id)
  {
    if |actions| != 0 {
      AlwaysTraced(c, actions[..|actions| - 1], id);
      NextTraces(c, actions, id);
    }
  }

  /** In every interleaving a request that answers with the failure has been hit by an exception, and it has
      written its cell exactly if that was between its write and its answer. */
  lemma FailedHasWrittenIff(c: Cells, actions: seq<Action>, id: nat)
    requires id in Run(c, actions).processes && HasFailed(Run(c, actions).processes[id])
    ensures AbortPoint(c, actions, id) != None
    ensures Wrote(c, actions, id) <==> PastWrite(AbortPoint(c, actions, id).value)
  {
    AlwaysTraced(c, actions, id);
  }

  // One such request, on literal cells.

  lemma OneMore(c: Cells, actions: seq<Action>, d: Cells, p: Process)
    requires Run(c, actions) == System(d, map[0 := p])
    ensures Run(c, actions + [Advance(0)]) == System(ProcessStep(d, p).cells, map[0 := ProcessStep(d, p).process])
    ensures Run(c, actions + [Abort(0)]) == System(d, map[0 := Aborted(p)])
  {
    assert (actions + [Advance(0)])[..|actions|] == actions == (actions + [Abort(0)])[..|actions|];
    assert map[0 := p][0 := ProcessStep(d, p).process] == map[0 := ProcessStep(d, p).process];
    assert map[0 := p][0 := Aborted(p)] == map[0 := Aborted(p)];
  }

  /** n steps of one process, and then an exception. */
  function Interrupted(p: Process, n: nat): seq<Action> { Stepped(p, n) + [Abort(0)] }

  function Stepped(p: Process, n: nat): seq<Action> {
    if n == 0 then [Spawn(0, p)] else Stepped(p, n - 1) + [Advance(0)]
  }

  lemma {:induction false} SteppedAfter(c: Cells, p: Process, n: nat)
    requires Begins(p)
    ensures Run(c, Stepped(p, n)) == System(After(c, p, n).cells, map[0 := After(c, p, n).process])
  {
    if n == 0 {
      assert [Spawn(0, p)][..0] == [] && map[][0 := p] == map[0 := p];
    } else {
      SteppedAfter(c, p, n - 1);
      OneMore(c, Stepped(p, n - 1), After(c, p, n - 1).cells, After(c, p, n - 1).process);
    }
  }

  const PAUSED := Cells(Paused, Lock(false, None), [])
  const NOTHING := Surroundings(None, None, false, false)
  const RESUME := ModeRequest(PaperAuto, false, "", false)

  /** A request to leave paused that fails after its fifth step answers with the failure, with the mode already
      changed and nothing logged. */
  lemma FailedButChanged()
    ensures var p := ModeRun(RESUME, NOTHING, ModeBegin);
            Run(PAUSED, Interrupted(p, 5))
            == System(PAUSED.(mode := PaperAuto), map[0 := ModeRun(RESUME, NOTHING, ModeDone(FAILED))])
  {
    var p := ModeRun(RESUME, NOTHING, ModeBegin);
    var m := After(PAUSED, p, 5);
    SteppedAfter(PAUSED, p, 5);
    OneMore(PAUSED, Stepped(p, 5), m.cells, m.process);
    ModeAfter(PAUSED, RESUME, NOTHING, 5);
    assert PAUSED.log + [] == PAUSED.log;
  }
}
