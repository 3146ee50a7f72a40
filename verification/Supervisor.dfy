/** trading/runtime/supervisor.py: two worker threads with bounded restarts, a shared stop flag and the
    joining main thread, as interleaved steps. Which loop call crashes or returns, who runs next and when a
    keyboard interrupt arrives are all up to the adversary. */
module Supervisor {
  import opened Prelude

  datatype Component = Ingestion | Trading

  datatype Event =
    | SupervisorStarted
    | Attempted(component: Component, attempt: nat, cooldownActive: bool)
    | Succeeded(component: Component, attempt: nat)
    | Exhausted(component: Component, attempt: nat)
    | ComponentError(component: Component)
    | SupervisorStopped(ingestionFailed: bool, tradingFailed: bool)

  datatype Config = Config(maxRestarts: int, cooldownSeconds: int) {
    /** How often a component can be restarted: a negative setting allows none. */
    function Limit(): nat { if maxRestarts > 0 then maxRestarts else 0 }
  }

  // ----- one worker thread -----

  datatype Pc =
    | NotStarted
    | AtGuard      // about to evaluate the loop condition
    | InLoop       // inside ingest_loop or run_loop
    | LogSucceeded | ResetCount
    | Handler      // in the except block, nothing decided yet
    | LogAttempt | LogCooldown
    | LogExhausted | StoreException | SetStop | LogError
    | Dead

  datatype Worker = Worker(pc: Pc, firstIteration: bool, hadCrash: bool, isRetry: bool, restartCount: nat,
                           exhausted: bool, failed: bool, calls: nat)

  const FRESH := Worker(NotStarted, true, false, false, 0, false, false, 0)

  datatype Effect = Effect(worker: Worker, logged: seq<Event>, stops: bool)

  predicate Guard(w: Worker, stop: bool) { w.firstIteration || w.hadCrash || !stop }

  predicate CanRestart(cfg: Config, w: Worker) { !w.exhausted && w.restartCount < cfg.maxRestarts }

  /** One step of a worker; `crashes` matters only when its loop call ends. */
  function WorkerStep(cfg: Config, c: Component, w: Worker, stop: bool, crashes: bool): Effect {
    match w.pc
    case NotStarted | Dead => Effect(w, [], false)
    case AtGuard =>
      if Guard(w, stop)
      then Effect(w.(pc := InLoop, firstIteration := false, isRetry := w.hadCrash, hadCrash := false,
                     calls := w.calls + 1), [], false)
      else Effect(w.(pc := Dead), [], false)
    case InLoop =>
      Effect(w.(pc := if crashes then Handler else if w.isRetry then LogSucceeded else Dead), [], false)
    case LogSucceeded => Effect(w.(pc := ResetCount), [Succeeded(c, w.restartCount)], false)
    case ResetCount => Effect(w.(pc := Dead, restartCount := 0), [], false)
    case Handler =>
      if CanRestart(cfg, w)
      then Effect(w.(pc := LogAttempt, restartCount := w.restartCount + 1, hadCrash := true), [], false)
      else if w.restartCount >= cfg.maxRestarts && !w.exhausted
      then Effect(w.(pc := LogExhausted, exhausted := true), [], false)
      else Effect(w.(pc := StoreException), [], false)
    case LogAttempt =>
      Effect(w.(pc := if cfg.cooldownSeconds > 0 then LogCooldown else AtGuard),
             [Attempted(c, w.restartCount, false)], false)
    case LogCooldown => Effect(w.(pc := AtGuard), [Attempted(c, w.restartCount, true)], false)
    case LogExhausted => Effect(w.(pc := StoreException), [Exhausted(c, w.restartCount)], false)
    case StoreException => Effect(w.(pc := SetStop, failed := true), [], false)
    case SetStop => Effect(w.(pc := LogError), [], true)
    case LogError => Effect(w.(pc := Dead), [ComponentError(c)], false)
  }

  // ----- what a worker has logged -----

  predicate About(e: Event, c: Component) {
    (e.Attempted? || e.Succeeded? || e.Exhausted?) && e.component == c
  }

  /** The restart events of one component. */
  function Restarts(log: seq<Event>, c: Component): seq<Event> {
    if |log| == 0 then []
    else Restarts(log[..|log| - 1], c) + (if About(log[|log| - 1], c) then [log[|log| - 1]] else [])
  }

  lemma RestartsSnoc(log: seq<Event>, e: Event, c: Component)
    ensures Restarts(log + [e], c) == Restarts(log, c) + if About(e, c) then [e] else []
  {
    assert (log + [e])[..|log|] == log;
  }

  /** Attempts 1 to n in order, each doubled when there is a cooldown. */
  function Attempts(cfg: Config, c: Component, n: nat): seq<Event> {
    if n == 0 then []
    else Attempts(cfg, c, n - 1) + [Attempted(c, n, false)]
         + (if cfg.cooldownSeconds > 0 then [Attempted(c, n, true)] else [])
  }

  /** What holds of a worker wherever it is. */
  predicate Sound(cfg: Config, w: Worker) {
    match w.pc
    case NotStarted => w == FRESH
    case AtGuard =>
      w.restartCount == w.calls <= cfg.Limit() && !w.exhausted && !w.failed
      && (w.firstIteration <==> w.calls == 0) && (w.hadCrash <==> w.calls != 0)
    case InLoop | Handler | LogSucceeded | ResetCount =>
      w.calls == w.restartCount + 1 && w.restartCount <= cfg.Limit() && !w.exhausted && !w.failed
      && (w.isRetry <==> w.restartCount != 0) && (w.pc in {LogSucceeded, ResetCount} ==> w.isRetry)
      && !w.firstIteration && !w.hadCrash
    case LogAttempt | LogCooldown =>
      0 < w.restartCount == w.calls <= cfg.Limit() && !w.exhausted && !w.failed && w.hadCrash && !w.firstIteration
      && (w.pc == LogCooldown ==> cfg.cooldownSeconds > 0)
    case LogExhausted | StoreException =>
      w.calls == w.restartCount + 1 && w.restartCount == cfg.Limit() && w.exhausted && !w.failed
    case SetStop | LogError =>
      w.calls == w.restartCount + 1 && w.restartCount == cfg.Limit() && w.exhausted && w.failed
    case Dead =>
      0 < w.calls <= cfg.Limit() + 1 && (w.failed <==> w.exhausted)
      && (w.exhausted ==> w.calls == cfg.Limit() + 1)
  }

  /** The restart events a worker has logged, determined by where it is. */
  function Logged(cfg: Config, c: Component, w: Worker): seq<Event>
    requires Sound(cfg, w)
  {
    match w.pc
    case NotStarted | AtGuard => Attempts(cfg, c, w.calls)
    case InLoop | Handler | LogSucceeded | LogAttempt | LogExhausted => Attempts(cfg, c, w.calls - 1)
    case LogCooldown => Attempts(cfg, c, w.calls - 1) + [Attempted(c, w.calls, false)]
    case ResetCount => Attempts(cfg, c, w.calls - 1) + [Succeeded(c, w.calls - 1)]
    case StoreException | SetStop | LogError => Attempts(cfg, c, w.calls - 1) + [Exhausted(c, cfg.Limit())]
    case Dead =>
      Attempts(cfg, c, w.calls - 1)
      + (if w.exhausted then [Exhausted(c, cfg.Limit())]
         else if w.calls > 1 then [Succeeded(c, w.calls - 1)]
         else [])
  }

  lemma StepSound(cfg: Config, c: Component, w: Worker, stop: bool, crashes: bool)
    requires Sound(cfg, w)
    ensures Sound(cfg, WorkerStep(cfg, c, w, stop, crashes).worker)
  {}

  function Kept(logged: seq<Event>, c: Component): seq<Event> {
    if |logged| != 0 && About(logged[0], c) then [logged[0]] else []
  }

  predicate Logs(cfg: Config, c: Component, w: Worker, e: Effect)
    requires Sound(cfg, w) && Sound(cfg, e.worker)
  {
    |e.logged| <= 1 && Logged(cfg, c, e.worker) == Logged(cfg, c, w) + Kept(e.logged, c)
  }

  lemma AttemptLogs(cfg: Config, c: Component, w: Worker, stop: bool, crashes: bool)
    requires Sound(cfg, w) && Sound(cfg, WorkerStep(cfg, c, w, stop, crashes).worker)
    requires w.pc in {LogAttempt, LogCooldown}
    ensures Logs(cfg, c, w, WorkerStep(cfg, c, w, stop, crashes))
  {
    var before := Attempts(cfg, c, w.calls - 1);
    var one := before + [Attempted(c, w.calls, false)];
    assert Attempts(cfg, c, w.calls) == one + if cfg.cooldownSeconds > 0 then [Attempted(c, w.calls, true)] else [];
    assert one + [] == one;
  }

  lemma QuietLogs(cfg: Config, c: Component, w: Worker, stop: bool, crashes: bool)
    requires Sound(cfg, w) && Sound(cfg, WorkerStep(cfg, c, w, stop, crashes).worker)
    requires w.pc in {NotStarted, AtGuard, InLoop, Handler, ResetCount, StoreException, SetStop, LogError, Dead}
    ensures Logs(cfg, c, w, WorkerStep(cfg, c, w, stop, crashes))
  {
    assert Logged(cfg, c, w) + [] == Logged(cfg, c, w);
    if w.pc == InLoop { assert Attempts(cfg, c, w.calls - 1) + [] == Attempts(cfg, c, w.calls - 1); }
  }

  lemma StepLogs(cfg: Config, c: Component, w: Worker, stop: bool, crashes: bool)
    requires Sound(cfg, w) && Sound(cfg, WorkerStep(cfg, c, w, stop, crashes).worker)
    ensures Logs(cfg, c, w, WorkerStep(cfg, c, w, stop, crashes))
  {
    if w.pc in {LogAttempt, LogCooldown} {
      AttemptLogs(cfg, c, w, stop, crashes);
    } else if w.pc !in {LogSucceeded, LogExhausted} {
      QuietLogs(cfg, c, w, stop, crashes);
    }
  }

  // ----- a worker's remaining steps -----

  /** An upper bound on the steps a worker can still take. */
  function Rank(cfg: Config, w: Worker): nat
    requires Sound(cfg, w)
  {
    var left := cfg.Limit() + 1 - w.calls;
    match w.pc
    case NotStarted | AtGuard => 5 * left + 2
    case InLoop => 5 * left + 6
    case Handler => 5 * left + 5
    case LogAttempt => 5 * left + 4
    case LogCooldown => 5 * left + 3
    case LogSucceeded => 2
    case ResetCount => 1
    case LogExhausted => 4
    case StoreException => 3
    case SetStop => 2
    case LogError => 1
    case Dead => 0
  }

  lemma StepRanks(cfg: Config, c: Component, w: Worker, stop: bool, crashes: bool)
    requires Sound(cfg, w) && Sound(cfg, WorkerStep(cfg, c, w, stop, crashes).worker)
    ensures w.pc !in {NotStarted, Dead}
            ==> Rank(cfg, WorkerStep(cfg, c, w, stop, crashes).worker) < Rank(cfg, w)
  {}
}
