/** Whole runs of the supervisor: the two workers, the main thread and the shared log interleaved in any
    order, and what the dashboard reads back from the log. */
module SupervisorRuns {
  import opened Prelude
  import opened Supervisor

  datatype Outcome = Returned | RaisedIngestion | RaisedTrading | RaisedBoth

  datatype Main =
    | StartIngestion | StartTrading
    | CheckStop | IngestionAlive | TradingAlive | JoinBoth      // the loop that an interrupt can break
    | WaitIngestion | WaitTrading | WaitJoin                    // until both workers are dead
    | Decide | LogStopped
    | Done(outcome: Outcome)

  datatype State = State(ingestion: Worker, trading: Worker, stop: bool, interrupted: bool, main: Main,
                         log: seq<Event>)
  {
    function Of(c: Component): Worker { if c == Ingestion then ingestion else trading }

    function With(c: Component, w: Worker): State {
      if c == Ingestion then this.(ingestion := w) else this.(trading := w)
    }
  }

  datatype Action = Work(component: Component, crashes: bool) | MainThread(interrupt: bool)

  function Start(earlier: seq<Event>): State {
    State(FRESH, FRESH, false, false, StartIngestion, earlier + [SupervisorStarted])
  }

  predicate Alive(w: Worker) { w.pc != NotStarted && w.pc != Dead }

  /** The main thread's loop, where Ctrl-C is caught. */
  predicate Interruptible(m: Main) { m in {CheckStop, IngestionAlive, TradingAlive, JoinBoth} }

  function OutcomeOf(s: State): Outcome {
    if s.ingestion.failed && !s.trading.failed then RaisedIngestion
    else if s.trading.failed && !s.ingestion.failed then RaisedTrading
    else if s.ingestion.failed && s.trading.failed then RaisedBoth
    else Returned
  }

  function MainStep(s: State, interrupt: bool): State {
    if interrupt && Interruptible(s.main) then s.(stop := true, interrupted := true, main := WaitIngestion)
    else match s.main
      case StartIngestion => s.(ingestion := s.ingestion.(pc := AtGuard), main := StartTrading)
      case StartTrading => s.(trading := s.trading.(pc := AtGuard), main := CheckStop)
      case CheckStop => s.(main := if s.stop then WaitIngestion else IngestionAlive)
      case IngestionAlive => s.(main := if Alive(s.ingestion) then JoinBoth else TradingAlive)
      case TradingAlive => s.(main := if Alive(s.trading) then JoinBoth else WaitIngestion)
      case JoinBoth => s.(main := CheckStop)
      case WaitIngestion => s.(main := if Alive(s.ingestion) then WaitJoin else WaitTrading)
      case WaitTrading => s.(main := if Alive(s.trading) then WaitJoin else Decide)
      case WaitJoin => s.(main := WaitIngestion)
      case Decide =>
        s.(main := if s.interrupted || OutcomeOf(s) == Returned then LogStopped else Done(OutcomeOf(s)))
      case LogStopped =>
        s.(main := Done(Returned), log := s.log + [SupervisorStopped(s.ingestion.failed, s.trading.failed)])
      case Done(_) => s
  }

  function Next(cfg: Config, s: State, a: Action): State {
    match a
    case Work(c, crashes) =>
      var e := WorkerStep(cfg, c, s.Of(c), s.stop, crashes);
      s.With(c, e.worker).(stop := s.stop || e.stops, log := s.log + e.logged)
    case MainThread(interrupt) => MainStep(s, interrupt)
  }

  function Run(cfg: Config, s: State, actions: seq<Action>): State {
    if |actions| == 0 then s else Next(cfg, Run(cfg, s, actions[..|actions| - 1]), actions[|actions| - 1])
  }

  // ----- invariants of every reachable state -----

  predicate WorkersSound(cfg: Config, s: State) { Sound(cfg, s.ingestion) && Sound(cfg, s.trading) }

  predicate MainSound(s: State) {
    && (s.ingestion.pc == NotStarted <==> s.main == StartIngestion)
    && (s.trading.pc == NotStarted <==> s.main in {StartIngestion, StartTrading})
    && (s.main in {TradingAlive, WaitTrading} ==> s.ingestion.pc == Dead)
    && (s.main in {Decide, LogStopped} || s.main.Done? ==> s.ingestion.pc == s.trading.pc == Dead)
    && (s.main == LogStopped ==> s.interrupted || OutcomeOf(s) == Returned)
    && (s.main.Done? ==> s.main.outcome == if s.interrupted then Returned else OutcomeOf(s))
  }

  /** A worker past its stop.set(). */
  predicate HasStopped(w: Worker) { w.failed && w.pc in {LogError, Dead} }

  predicate StopSound(s: State) { s.stop <==> s.interrupted || HasStopped(s.ingestion) || HasStopped(s.trading) }

  function Stops(log: seq<Event>): nat {
    if |log| == 0 then 0
    else Stops(log[..|log| - 1]) + if log[|log| - 1].SupervisorStopped? then 1 else 0
  }

  predicate LogMatches(cfg: Config, earlier: seq<Event>, log: seq<Event>, c: Component, w: Worker)
    requires Sound(cfg, w)
  {
    Restarts(log, c) == Restarts(earlier, c) + Logged(cfg, c, w)
  }

  predicate LogSound(cfg: Config, earlier: seq<Event>, s: State)
    requires WorkersSound(cfg, s)
  {
    && LogMatches(cfg, earlier, s.log, Ingestion, s.ingestion)
    && LogMatches(cfg, earlier, s.log, Trading, s.trading)
    && Stops(s.log) == Stops(earlier) + if s.main == Done(Returned) then 1 else 0
  }

  predicate Reachable(cfg: Config, earlier: seq<Event>, s: State) {
    WorkersSound(cfg, s) && MainSound(s) && StopSound(s) && LogSound(cfg, earlier, s)
  }

  lemma OwnLog(cfg: Config, earlier: seq<Event>, log: seq<Event>, c: Component, w: Worker, stop: bool, crashes: bool)
    requires Sound(cfg, w) && LogMatches(cfg, earlier, log, c, w)
    ensures var e := WorkerStep(cfg, c, w, stop, crashes);
            Sound(cfg, e.worker) && |e.logged| <= 1 && LogMatches(cfg, earlier, log + e.logged, c, e.worker)
  {
    StepSound(cfg, c, w, stop, crashes);
    var e := WorkerStep(cfg, c, w, stop, crashes);
    StepLogs(cfg, c, w, stop, crashes);
    LogGrows(log, e.logged, c);
    SnocAssociates(Restarts(earlier, c), Logged(cfg, c, w), Kept(e.logged, c));
  }

  lemma LogGrows(log: seq<Event>, more: seq<Event>, c: Component)
    requires |more| <= 1
    ensures Restarts(log + more, c) == Restarts(log, c) + Kept(more, c)
  {
    if |more| == 0 {
      assert log + more == log;
    } else {
      assert more == [more[0]];
      RestartsSnoc(log, more[0], c);
    }
  }

  lemma SnocAssociates(a: seq<Event>, b: seq<Event>, c: seq<Event>)
    ensures a + b + c == a + (b + c)
  {}

  lemma StopsGrow(log: seq<Event>, more: seq<Event>)
    requires |more| <= 1
    ensures Stops(log + more) == Stops(log) + if |more| != 0 && more[0].SupervisorStopped? then 1 else 0
  {
    if |more| == 0 { assert log + more == log; } else { assert (log + more)[..|log|] == log; }
  }

  /** A worker logs nothing about the other one, and never that the supervisor stopped. */
  lemma StepIsLocal(cfg: Config, c: Component, w: Worker, stop: bool, crashes: bool, other: Component)
    requires other != c
    ensures var logged := WorkerStep(cfg, c, w, stop, crashes).logged;
            |logged| <= 1 && Kept(logged, other) == [] && (|logged| != 0 ==> !logged[0].SupervisorStopped?)
  {}

  lemma OtherLog(cfg: Config, earlier: seq<Event>, log: seq<Event>, more: seq<Event>, c: Component, w: Worker)
    requires Sound(cfg, w) && LogMatches(cfg, earlier, log, c, w) && |more| <= 1 && Kept(more, c) == []
    ensures LogMatches(cfg, earlier, log + more, c, w)
  {
    LogGrows(log, more, c);
    assert Restarts(log, c) + [] == Restarts(log, c);
  }

  lemma WorkKeeps(cfg: Config, earlier: seq<Event>, s: State, c: Component, crashes: bool)
    requires WorkersSound(cfg, s) && LogSound(cfg, earlier, s)
    ensures WorkersSound(cfg, Next(cfg, s, Work(c, crashes))) && LogSound(cfg, earlier, Next(cfg, s, Work(c, crashes)))
  {
    var other := if c == Ingestion then Trading else Ingestion;
    var e := WorkerStep(cfg, c, s.Of(c), s.stop, crashes);
    OwnLog(cfg, earlier, s.log, c, s.Of(c), s.stop, crashes);
    StepIsLocal(cfg, c, s.Of(c), s.stop, crashes, other);
    OtherLog(cfg, earlier, s.log, e.logged, other, s.Of(other));
    StopsGrow(s.log, e.logged);
  }

  lemma WorkKeepsFlags(cfg: Config, s: State, c: Component, crashes: bool)
    requires WorkersSound(cfg, s) && MainSound(s) && StopSound(s)
    ensures MainSound(Next(cfg, s, Work(c, crashes))) && StopSound(Next(cfg, s, Work(c, crashes)))
  {}

  lemma MainKeepsFlags(cfg: Config, s: State, interrupt: bool)
    requires WorkersSound(cfg, s) && MainSound(s) && StopSound(s)
    ensures var t := MainStep(s, interrupt); WorkersSound(cfg, t) && MainSound(t) && StopSound(t)
  {
    MainKeepsWorkers(cfg, s, interrupt);
  }

  lemma MainKeepsWorkers(cfg: Config, s: State, interrupt: bool)
    requires WorkersSound(cfg, s) && MainSound(s) && StopSound(s)
    ensures WorkersSound(cfg, MainStep(s, interrupt)) && StopSound(MainStep(s, interrupt))
  {}

  lemma MainKeepsLog(cfg: Config, earlier: seq<Event>, s: State, interrupt: bool)
    requires WorkersSound(cfg, s) && LogSound(cfg, earlier, s) && MainSound(s)
    requires WorkersSound(cfg, MainStep(s, interrupt))
    ensures LogSound(cfg, earlier, MainStep(s, interrupt))
  {
    if s.main == LogStopped { StoppedLog(cfg, earlier, s, interrupt); }
  }

  lemma StoppedLog(cfg: Config, earlier: seq<Event>, s: State, interrupt: bool)
    requires WorkersSound(cfg, s) && LogSound(cfg, earlier, s) && s.main == LogStopped
    ensures WorkersSound(cfg, MainStep(s, interrupt)) && LogSound(cfg, earlier, MainStep(s, interrupt))
  {
    var more := [SupervisorStopped(s.ingestion.failed, s.trading.failed)];
    OtherLog(cfg, earlier, s.log, more, Ingestion, s.ingestion);
    OtherLog(cfg, earlier, s.log, more, Trading, s.trading);
    StopsGrow(s.log, more);
  }

  lemma StartReachable(cfg: Config, earlier: seq<Event>)
    ensures Reachable(cfg, earlier, Start(earlier))
  {
    OtherLog(cfg, earlier, earlier, [SupervisorStarted], Ingestion, FRESH);
    OtherLog(cfg, earlier, earlier, [SupervisorStarted], Trading, FRESH);
    StopsGrow(earlier, [SupervisorStarted]);
  }

  lemma {:induction false} RunKeeps(cfg: Config, earlier: seq<Event>, s: State, actions: seq<Action>)
    requires Reachable(cfg, earlier, s)
    ensures Reachable(cfg, earlier, Run(cfg, s, actions))
  {
    if |actions| != 0 {
      var t, a := Run(cfg, s, actions[..|actions| - 1]), actions[|actions| - 1];
      RunKeeps(cfg, earlier, s, actions[..|actions| - 1]);
      match a
      case Work(c, crashes) => WorkKeeps(cfg, earlier, t, c, crashes); WorkKeepsFlags(cfg, t, c, crashes);
      case MainThread(interrupt) => MainKeepsFlags(cfg, t, interrupt); MainKeepsLog(cfg, earlier, t, interrupt);
    }
  }

  /** The invariant holds after every interleaving, whatever crashes. */
  lemma AlwaysReachable(cfg: Config, earlier: seq<Event>, actions: seq<Action>)
    ensures Reachable(cfg, earlier, Run(cfg, Start(earlier), actions))
  {
    StartReachable(cfg, earlier);
    RunKeeps(cfg, earlier, Start(earlier), actions);
  }

  // ----- the restart protocol -----

  /** Each worker calls its loop at most max_restarts + 1 times, although the count is reset after a
      success; and its loop condition never ends it, so a crashed worker retries even after stop is set. */
  lemma CallsBounded(cfg: Config, earlier: seq<Event>, actions: seq<Action>, c: Component)
    ensures var s := Run(cfg, Start(earlier), actions);
            s.Of(c).calls <= cfg.Limit() + 1
            && (s.Of(c).pc == AtGuard ==> Guard(s.Of(c), s.stop))
  {
    AlwaysReachable(cfg, earlier, actions);
  }

  /** Attempts 1 to k, and then possibly the first half of a doubled attempt, one success or one exhaustion. */
  predicate Protocol(cfg: Config, c: Component, own: seq<Event>, k: nat) {
    || own == Attempts(cfg, c, k)
    || (own == Attempts(cfg, c, k) + [Attempted(c, k + 1, false)] && cfg.cooldownSeconds > 0 && k < cfg.Limit())
    || (own == Attempts(cfg, c, k) + [Succeeded(c, k)] && k > 0)
    || (own == Attempts(cfg, c, k) + [Exhausted(c, k)] && k == cfg.Limit())
  }

  lemma LoggedProtocol(cfg: Config, c: Component, w: Worker) returns (k: nat)
    requires Sound(cfg, w)
    ensures k <= cfg.Limit() && Protocol(cfg, c, Logged(cfg, c, w), k)
  {
    k := if w.pc in {NotStarted, AtGuard} then w.calls else w.calls - 1;
    assert Attempts(cfg, c, k) + [] == Attempts(cfg, c, k);
  }

  /** At every moment a component's restart events of this run follow the protocol. */
  lemma RestartLog(cfg: Config, earlier: seq<Event>, actions: seq<Action>, c: Component)
    returns (k: nat, own: seq<Event>)
    ensures Restarts(Run(cfg, Start(earlier), actions).log, c) == Restarts(earlier, c) + own
    ensures k <= cfg.Limit() && Protocol(cfg, c, own, k)
  {
    AlwaysReachable(cfg, earlier, actions);
    var s := Run(cfg, Start(earlier), actions);
    own := Logged(cfg, c, s.Of(c));
    k := LoggedProtocol(cfg, c, s.Of(c));
  }

  lemma {:induction false} AttemptsInOrder(cfg: Config, c: Component, n: nat, i: nat)
    requires i < n
    ensures cfg.cooldownSeconds <= 0 ==>
              |Attempts(cfg, c, n)| == n && Attempts(cfg, c, n)[i] == Attempted(c, i + 1, false)
    ensures cfg.cooldownSeconds > 0 ==>
              |Attempts(cfg, c, n)| == 2 * n
              && Attempts(cfg, c, n)[2 * i] == Attempted(c, i + 1, false)
              && Attempts(cfg, c, n)[2 * i + 1] == Attempted(c, i + 1, true)
  {
    if i < n - 1 { AttemptsInOrder(cfg, c, n - 1, i); } else if n > 1 { AttemptsInOrder(cfg, c, n - 1, 0); }
  }

  /** The last restart event of a finished worker, if any. */
  function LastWord(cfg: Config, c: Component, w: Worker): seq<Event> {
    if w.failed then [Exhausted(c, cfg.Limit())] else if w.calls > 1 then [Succeeded(c, w.calls - 1)] else []
  }

  lemma DeadWorker(cfg: Config, earlier: seq<Event>, log: seq<Event>, c: Component, w: Worker)
    requires Sound(cfg, w) && LogMatches(cfg, earlier, log, c, w) && w.pc == Dead
    ensures 0 < w.calls && (w.failed <==> w.exhausted) && (w.failed ==> w.calls == cfg.Limit() + 1)
    ensures Restarts(log, c) == Restarts(earlier, c) + Attempts(cfg, c, w.calls - 1) + LastWord(cfg, c, w)
  {
    SnocAssociates(Restarts(earlier, c), Attempts(cfg, c, w.calls - 1), LastWord(cfg, c, w));
  }

  /** A finished worker failed exactly when it used up its restarts, and says so last; otherwise it
      reports a success exactly when it was restarted. */
  lemma FinishedWorker(cfg: Config, earlier: seq<Event>, actions: seq<Action>, c: Component)
    requires Run(cfg, Start(earlier), actions).Of(c).pc == Dead
    ensures var s := Run(cfg, Start(earlier), actions);
            var w := s.Of(c);
            0 < w.calls && (w.failed <==> w.exhausted) && (w.failed ==> w.calls == cfg.Limit() + 1)
            && Restarts(s.log, c) == Restarts(earlier, c) + Attempts(cfg, c, w.calls - 1) + LastWord(cfg, c, w)
  {
    AlwaysReachable(cfg, earlier, actions);
    FinishedIn(cfg, earlier, Run(cfg, Start(earlier), actions), c);
  }

  lemma FinishedIn(cfg: Config, earlier: seq<Event>, s: State, c: Component)
    requires Reachable(cfg, earlier, s) && s.Of(c).pc == Dead
    ensures var w := s.Of(c);
            0 < w.calls && (w.failed <==> w.exhausted) && (w.failed ==> w.calls == cfg.Limit() + 1)
            && Restarts(s.log, c) == Restarts(earlier, c) + Attempts(cfg, c, w.calls - 1) + LastWord(cfg, c, w)
  {
    DeadWorker(cfg, earlier, s.log, c, s.Of(c));
  }

  // ----- leaving -----

  /** The supervisor leaves only after both workers are dead. Without an interrupt it returns exactly when
      neither failed, and raises what failed otherwise; it logs supervisor_stopped exactly when it returns. */
  lemma ExitFaithful(cfg: Config, earlier: seq<Event>, actions: seq<Action>)
    ensures var s := Run(cfg, Start(earlier), actions);
            && (s.main.Done? ==> s.ingestion.pc == Dead && s.trading.pc == Dead)
            && (s.main.Done? && !s.interrupted ==> s.main.outcome == OutcomeOf(s))
            && (s.main.Done? && s.interrupted ==> s.main.outcome == Returned)
            && Stops(s.log) == Stops(earlier) + (if s.main == Done(Returned) then 1 else 0)
  {
    AlwaysReachable(cfg, earlier, actions);
  }

  /** Only an interrupt or a component that used up its restarts sets the stop flag. */
  lemma StopHasACause(cfg: Config, earlier: seq<Event>, actions: seq<Action>)
    ensures var s := Run(cfg, Start(earlier), actions);
            s.stop ==> s.interrupted || s.ingestion.exhausted || s.trading.exhausted
  {
    AlwaysReachable(cfg, earlier, actions);
  }

  function Turns(actions: seq<Action>, c: Component): nat {
    if |actions| == 0 then 0
    else
      Turns(actions[..|actions| - 1], c) + if OwnTurn(actions[|actions| - 1], c) then 1 else 0
  }

  lemma MainSparesWorkers(s: State, interrupt: bool, c: Component)
    requires MainSound(s) && s.Of(c).pc != NotStarted
    ensures MainStep(s, interrupt).Of(c) == s.Of(c)
  {}

  predicate OwnTurn(a: Action, c: Component) { a.Work? && a.component == c }

  lemma OwnTurnRanks(cfg: Config, s: State, a: Action, c: Component)
    requires WorkersSound(cfg, s) && s.Of(c).pc != NotStarted && OwnTurn(a, c)
    requires WorkersSound(cfg, Next(cfg, s, a))
    ensures var w := Next(cfg, s, a).Of(c);
            w.pc != NotStarted && (w.pc == Dead || Rank(cfg, w) + 1 <= Rank(cfg, s.Of(c)))
  {
    assert a == Work(c, a.crashes);
    NextOwn(cfg, s, c, a.crashes);
    LiveRanks(cfg, c, s.Of(c), s.stop, a.crashes);
  }

  lemma NextOwn(cfg: Config, s: State, c: Component, crashes: bool)
    ensures Next(cfg, s, Work(c, crashes)).Of(c) == WorkerStep(cfg, c, s.Of(c), s.stop, crashes).worker
  {}

  lemma LiveRanks(cfg: Config, c: Component, w: Worker, stop: bool, crashes: bool)
    requires Sound(cfg, w) && w.pc != NotStarted && Sound(cfg, WorkerStep(cfg, c, w, stop, crashes).worker)
    ensures var t := WorkerStep(cfg, c, w, stop, crashes).worker;
            t.pc != NotStarted && (t.pc == Dead || Rank(cfg, t) + 1 <= Rank(cfg, w))
  {
    StepRanks(cfg, c, w, stop, crashes);
  }

  lemma OtherTurnSpares(cfg: Config, s: State, a: Action, c: Component)
    requires MainSound(s) && s.Of(c).pc != NotStarted && !OwnTurn(a, c)
    ensures Next(cfg, s, a).Of(c) == s.Of(c)
  {
    if a.MainThread? { MainSparesWorkers(s, a.interrupt, c); }
  }

  lemma {:induction false} TurnsBounded(cfg: Config, earlier: seq<Event>, s: State, actions: seq<Action>, c: Component)
    requires Reachable(cfg, earlier, s) && s.Of(c).pc != NotStarted
    ensures var t := Run(cfg, s, actions);
            Sound(cfg, t.Of(c)) && t.Of(c).pc != NotStarted
            && (t.Of(c).pc == Dead || Rank(cfg, t.Of(c)) + Turns(actions, c) <= Rank(cfg, s.Of(c)))
  {
    if |actions| != 0 {
      var front, a := actions[..|actions| - 1], actions[|actions| - 1];
      TurnsBounded(cfg, earlier, s, front, c);
      RunKeeps(cfg, earlier, s, front);
      RunKeeps(cfg, earlier, s, actions);
      if OwnTurn(a, c) {
        OwnTurnRanks(cfg, Run(cfg, s, front), a, c);
      } else {
        OtherTurnSpares(cfg, Run(cfg, s, front), a, c);
      }
    }
  }

  /** Termination of the workers: once started, a worker is dead after 5 * max_restarts + 7 turns at the
      latest, a turn inside its loop being the end of that call. */
  lemma WorkersEnd(cfg: Config, earlier: seq<Event>, before: seq<Action>, later: seq<Action>, c: Component)
    requires Run(cfg, Start(earlier), before).Of(c).pc != NotStarted
    requires Turns(later, c) >= 5 * cfg.Limit() + 7
    ensures Run(cfg, Run(cfg, Start(earlier), before), later).Of(c).pc == Dead
  {
    AlwaysReachable(cfg, earlier, before);
    var s := Run(cfg, Start(earlier), before);
    TurnsBounded(cfg, earlier, s, later, c);
  }

  function MainTurns(actions: seq<Action>): nat {
    if |actions| == 0 then 0
    else MainTurns(actions[..|actions| - 1]) + if actions[|actions| - 1].MainThread? then 1 else 0
  }

  function MainRank(m: Main): nat {
    match m
    case StartIngestion | StartTrading | JoinBoth => 8
    case CheckStop => 7
    case IngestionAlive => 6
    case TradingAlive | WaitJoin => 5
    case WaitIngestion => 4
    case WaitTrading => 3
    case Decide => 2
    case LogStopped => 1
    case Done(_) => 0
  }

  predicate BothDead(s: State) { s.ingestion.pc == Dead && s.trading.pc == Dead }

  lemma MainRanks(s: State, interrupt: bool)
    requires BothDead(s) && MainSound(s)
    ensures var t := MainStep(s, interrupt);
            BothDead(t) && (t.main.Done? || MainRank(t.main) < MainRank(s.main))
  {}

  lemma DeadStayDead(cfg: Config, s: State, c: Component, crashes: bool)
    requires BothDead(s)
    ensures var t := Next(cfg, s, Work(c, crashes)); BothDead(t) && t.main == s.main
  {}

  lemma DeadNext(cfg: Config, s: State, a: Action)
    requires BothDead(s) && MainSound(s)
    ensures var t := Next(cfg, s, a);
            BothDead(t) && if a.MainThread? then t.main.Done? || MainRank(t.main) < MainRank(s.main)
                           else t.main == s.main
  {
    match a
    case Work(c, crashes) => DeadStayDead(cfg, s, c, crashes);
    case MainThread(interrupt) => MainRanks(s, interrupt);
  }

  /** Once both workers are dead, the main thread leaves within eight of its own steps. */
  lemma {:induction false} MainLeaves(cfg: Config, earlier: seq<Event>, s: State, actions: seq<Action>)
    requires Reachable(cfg, earlier, s) && BothDead(s)
    ensures var t := Run(cfg, s, actions);
            BothDead(t) && (t.main.Done? || MainRank(t.main) + MainTurns(actions) <= MainRank(s.main))
    ensures MainTurns(actions) >= 8 ==> Run(cfg, s, actions).main.Done?
  {
    if |actions| != 0 {
      var front, a := actions[..|actions| - 1], actions[|actions| - 1];
      MainLeaves(cfg, earlier, s, front);
      RunKeeps(cfg, earlier, s, front);
      DeadNext(cfg, Run(cfg, s, front), a);
    }
  }

  // ----- what the dashboard reads back -----

  /** The newest success or exhaustion of a component decides. */
  function Flag(log: seq<Event>, c: Component): bool {
    if |log| == 0 then false
    else if log[|log| - 1].Exhausted? && log[|log| - 1].component == c then true
    else if log[|log| - 1].Succeeded? && log[|log| - 1].component == c then false
    else Flag(log[..|log| - 1], c)
  }

  predicate Decides(e: Event, c: Component) { (e.Succeeded? || e.Exhausted?) && e.component == c }

  /** The status endpoint's loop over the events, newest first. */
  method ReadExhausted(log: seq<Event>) returns (ingestion: bool, trading: bool)
    ensures ingestion == Flag(log, Ingestion) && trading == Flag(log, Trading)
  {
    var seenIngestion: Option<bool>, seenTrading: Option<bool> := None, None;
    var n := |log|;
    assert log[..n] == log;
    while n > 0
      invariant 0 <= n <= |log|
      invariant Flag(log, Ingestion) == seenIngestion.GetOr(Flag(log[..n], Ingestion))
      invariant Flag(log, Trading) == seenTrading.GetOr(Flag(log[..n], Trading))
    {
      var e := log[n - 1];
      assert log[..n][..n - 1] == log[..n - 1] && log[..n][n - 1] == e;
      if e.Exhausted? {
        if e.component == Ingestion && seenIngestion == None {
          seenIngestion := Some(true);
        } else if e.component == Trading && seenTrading == None {
          seenTrading := Some(true);
        }
      } else if e.Succeeded? {
        if e.component == Ingestion && seenIngestion == None {
          seenIngestion := Some(false);
        } else if e.component == Trading && seenTrading == None {
          seenTrading := Some(false);
        }
      }
      n := n - 1;
    }
    return seenIngestion.GetOr(false), seenTrading.GetOr(false);
  }

  lemma FlagSnoc(log: seq<Event>, e: Event, c: Component)
    ensures Flag(log + [e], c) == if Decides(e, c) then e.Exhausted? else Flag(log, c)
  {
    assert (log + [e])[..|log|] == log;
  }

  /** Only the component's own restart events matter. */
  lemma {:induction false} FlagOfRestarts(log: seq<Event>, c: Component)
    ensures Flag(log, c) == Flag(Restarts(log, c), c)
  {
    if |log| != 0 {
      var front, e := log[..|log| - 1], log[|log| - 1];
      FlagOfRestarts(front, c);
      FlagSnoc(Restarts(front, c), e, c);
      assert Restarts(front, c) + [] == Restarts(front, c);
    }
  }

  lemma {:induction false} AttemptsDecideNothing(cfg: Config, log: seq<Event>, c: Component, n: nat)
    ensures Flag(log + Attempts(cfg, c, n), c) == Flag(log, c)
  {
    if n == 0 {
      assert log + [] == log;
    } else {
      AttemptsDecideNothing(cfg, log, c, n - 1);
      var before, one := log + Attempts(cfg, c, n - 1), Attempted(c, n, false);
      FlagSnoc(before, one, c);
      FlagSnoc(before + [one], Attempted(c, n, true), c);
      if cfg.cooldownSeconds > 0 {
        assert log + Attempts(cfg, c, n) == before + [one] + [Attempted(c, n, true)];
      } else {
        assert log + Attempts(cfg, c, n) == before + [one];
      }
    }
  }

  lemma FlagAfter(cfg: Config, log: seq<Event>, c: Component, n: nat, e: Event)
    ensures Flag(log + (Attempts(cfg, c, n) + [e]), c) == if Decides(e, c) then e.Exhausted? else Flag(log, c)
  {
    AttemptsDecideNothing(cfg, log, c, n);
    FlagSnoc(log + Attempts(cfg, c, n), e, c);
    SnocAssociates(log, Attempts(cfg, c, n), [e]);
  }

  /** Whether the worker has logged its success or exhaustion. */
  predicate Settled(w: Worker) {
    w.pc in {ResetCount, StoreException, SetStop, LogError} || (w.pc == Dead && (w.exhausted || w.calls > 1))
  }

  lemma SettledLog(cfg: Config, c: Component, w: Worker)
    requires Sound(cfg, w) && Settled(w)
    ensures Logged(cfg, c, w)
         == Attempts(cfg, c, w.calls - 1)
            + [if w.exhausted then Exhausted(c, cfg.Limit()) else Succeeded(c, w.calls - 1)]
  {}

  lemma UnsettledLog(cfg: Config, c: Component, w: Worker) returns (n: nat)
    requires Sound(cfg, w) && !Settled(w)
    ensures Logged(cfg, c, w) in [Attempts(cfg, c, n), Attempts(cfg, c, n) + [Attempted(c, n + 1, false)]]
  {
    n := if w.pc in {NotStarted, AtGuard} then w.calls else w.calls - 1;
    assert Attempts(cfg, c, n) + [] == Attempts(cfg, c, n);
  }

  lemma FlagOfLogged(cfg: Config, earlier: seq<Event>, c: Component, w: Worker)
    requires Sound(cfg, w)
    ensures Flag(Restarts(earlier, c) + Logged(cfg, c, w), c) == if Settled(w) then w.exhausted else Flag(earlier, c)
  {
    var r := Restarts(earlier, c);
    FlagOfRestarts(earlier, c);
    if Settled(w) {
      SettledLog(cfg, c, w);
      FlagAfter(cfg, r, c, w.calls - 1, if w.exhausted then Exhausted(c, cfg.Limit()) else Succeeded(c, w.calls - 1));
    } else {
      var n := UnsettledLog(cfg, c, w);
      AttemptsDecideNothing(cfg, r, c, n);
      FlagAfter(cfg, r, c, n, Attempted(c, n + 1, false));
    }
  }

  /** The dashboard's flag, in every reachable state and for every earlier log. */
  lemma FlagExact(cfg: Config, earlier: seq<Event>, actions: seq<Action>, c: Component)
    ensures var s := Run(cfg, Start(earlier), actions);
            Flag(s.log, c) == if Settled(s.Of(c)) then s.Of(c).exhausted else Flag(earlier, c)
  {
    AlwaysReachable(cfg, earlier, actions);
    var s := Run(cfg, Start(earlier), actions);
    FlagOfRestarts(s.log, c);
    FlagOfLogged(cfg, earlier, c, s.Of(c));
  }

  /** The dashboard never shows a component exhausted that is not, and shows one as soon as it is logged. */
  ghost predicate FlagTruthful(cfg: Config, earlier: seq<Event>, actions: seq<Action>, c: Component) {
    var s := Run(cfg, Start(earlier), actions);
    && (Flag(s.log, c) ==> s.Of(c).exhausted)
    && (s.Of(c).pc != LogExhausted ==> Flag(s.log, c) == s.Of(c).exhausted)
  }

  /** This holds in every reachable state if and only if the log the supervisor starts on does not already
      show the component as exhausted: an old exhaustion is never cleared until a restart succeeds. */
  lemma FlagTruthfulIff(cfg: Config, earlier: seq<Event>, c: Component)
    ensures (forall actions :: FlagTruthful(cfg, earlier, actions, c)) <==> !Flag(earlier, c)
  {
    FlagExact(cfg, earlier, [], c);
    if Flag(earlier, c) { assert !FlagTruthful(cfg, earlier, [], c); }
    forall actions ensures !Flag(earlier, c) ==> FlagTruthful(cfg, earlier, actions, c) {
      FlagExact(cfg, earlier, actions, c);
      AlwaysReachable(cfg, earlier, actions);
    }
  }
}