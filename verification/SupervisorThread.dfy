/** trading/runtime/supervisor.py: the body of a worker thread as it is written, refining the step machine. */
module SupervisorThread {
  import opened Prelude
  import opened Supervisor

  /** One component's entry of _restart_state. */
  class RestartState {
    var restartCount: nat
    var exhausted: bool
    var hadCrash: bool

    constructor ()
      ensures restartCount == 0 && !exhausted && !hadCrash
    {
      restartCount, exhausted, hadCrash := 0, false, false;
    }
  }

  /** What the threads share: the stop event, the database log and the stored exception. */
  class Shared {
    var stop: bool
    var log: seq<Event>
    var failed: bool

    constructor (earlier: seq<Event>)
      ensures !stop && !failed && log == earlier
    {
      stop, log, failed := false, earlier, false;
    }
  }

  // ----- the step machine with one thread scheduled -----

  datatype Thread = Thread(worker: Worker, stop: bool, log: seq<Event>)

  function Step(cfg: Config, c: Component, t: Thread, crashes: bool): Thread {
    var e := WorkerStep(cfg, c, t.worker, t.stop, crashes);
    Thread(e.worker, t.stop || e.stops, t.log + e.logged)
  }

  function Solo(cfg: Config, c: Component, t: Thread, steps: seq<bool>): Thread
    decreases |steps|
  {
    if |steps| == 0 then t else Solo(cfg, c, Step(cfg, c, t, steps[0]), steps[1..])
  }

  lemma {:induction false} SoloAppend(cfg: Config, c: Component, t: Thread, first: seq<bool>, second: seq<bool>)
    ensures Solo(cfg, c, t, first + second) == Solo(cfg, c, Solo(cfg, c, t, first), second)
    decreases |first|
  {
    if |first| == 0 {
      assert first + second == second;
    } else {
      assert (first + second)[1..] == first[1..] + second;
      SoloAppend(cfg, c, Step(cfg, c, t, first[0]), first[1..], second);
    }
  }

  lemma SoloTwo(cfg: Config, c: Component, t: Thread, a: bool, steps: seq<bool>)
    ensures Solo(cfg, c, t, [a] + steps) == Solo(cfg, c, Step(cfg, c, t, a), steps)
  {
    assert ([a] + steps)[1..] == steps;
  }

  function AttemptRows(cfg: Config, c: Component, n: nat): seq<Event> {
    [Attempted(c, n, false)] + (if cfg.cooldownSeconds > 0 then [Attempted(c, n, true)] else [])
  }

  /** What one pass through the loop body amounts to. */
  function Pass(cfg: Config, c: Component, t: Thread, crashes: bool): Thread {
    var w := t.worker.(firstIteration := false, isRetry := t.worker.hadCrash, hadCrash := false,
                       calls := t.worker.calls + 1);
    if !crashes then
      if w.isRetry then Thread(w.(pc := Dead, restartCount := 0), t.stop, t.log + [Succeeded(c, w.restartCount)])
      else Thread(w.(pc := Dead), t.stop, t.log)
    else if CanRestart(cfg, w) then
      Thread(w.(pc := AtGuard, restartCount := w.restartCount + 1, hadCrash := true), t.stop,
             t.log + AttemptRows(cfg, c, w.restartCount + 1))
    else
      Thread(w.(pc := Dead, exhausted := true, failed := true), true,
             t.log + [Exhausted(c, w.restartCount), ComponentError(c)])
  }

  lemma ReturnPass(cfg: Config, c: Component, t: Thread) returns (steps: seq<bool>)
    requires t.worker.pc == AtGuard && Guard(t.worker, t.stop)
    ensures Solo(cfg, c, t, steps) == Pass(cfg, c, t, false)
  {
    var t1 := Step(cfg, c, t, false);
    var t2 := Step(cfg, c, t1, false);
    assert t1.log == t.log && t2.log == t.log;
    SoloTwo(cfg, c, t1, false, []);
    SoloTwo(cfg, c, t, false, [false]);
    steps := [false] + [false];
    if t1.worker.isRetry {
      var t3 := Step(cfg, c, t2, false);
      SoloTwo(cfg, c, t3, false, []);
      SoloTwo(cfg, c, t2, false, [false]);
      SoloAppend(cfg, c, t, steps, [false] + [false]);
      steps := steps + ([false] + [false]);
      assert Step(cfg, c, t3, false).log == t3.log;
    }
  }

  /** The three steps up to the decision in the except block. */
  lemma CrashSteps(cfg: Config, c: Component, t: Thread)
    requires t.worker.pc == AtGuard && Guard(t.worker, t.stop)
    ensures Solo(cfg, c, t, [true, true])
         == Thread(t.worker.(pc := Handler, firstIteration := false, isRetry := t.worker.hadCrash, hadCrash := false,
                             calls := t.worker.calls + 1), t.stop, t.log)
  {
    var t1 := Step(cfg, c, t, true);
    assert t1.log == t.log && Step(cfg, c, t1, true).log == t.log;
    SoloTwo(cfg, c, t1, true, []);
    SoloTwo(cfg, c, t, true, [true]);
    assert [true] + [true] == [true, true];
  }

  lemma RetrySteps(cfg: Config, c: Component, t: Thread) returns (steps: seq<bool>)
    requires t.worker.pc == Handler && CanRestart(cfg, t.worker)
    ensures Solo(cfg, c, t, steps)
         == Thread(t.worker.(pc := AtGuard, restartCount := t.worker.restartCount + 1, hadCrash := true), t.stop,
                   t.log + AttemptRows(cfg, c, t.worker.restartCount + 1))
  {
    var t1 := Step(cfg, c, t, true);
    var t2 := Step(cfg, c, t1, true);
    assert t1.log == t.log;
    if cfg.cooldownSeconds > 0 {
      SoloTwo(cfg, c, t2, true, []);
      SoloTwo(cfg, c, t1, true, [true]);
      SoloTwo(cfg, c, t, true, [true] + [true]);
      steps := [true] + ([true] + [true]);
      assert Step(cfg, c, t2, true).log == t.log + AttemptRows(cfg, c, t.worker.restartCount + 1);
    } else {
      SoloTwo(cfg, c, t1, true, []);
      SoloTwo(cfg, c, t, true, [true]);
      steps := [true] + [true];
      assert t2.log == t.log + AttemptRows(cfg, c, t.worker.restartCount + 1);
    }
  }

  lemma GiveUpSteps(cfg: Config, c: Component, t: Thread)
    requires t.worker.pc == Handler && !CanRestart(cfg, t.worker) && !t.worker.exhausted
    ensures Solo(cfg, c, t, [true, true, true, true, true])
         == Thread(t.worker.(pc := Dead, exhausted := true, failed := true), true,
                   t.log + [Exhausted(c, t.worker.restartCount), ComponentError(c)])
  {
    var t1 := Step(cfg, c, t, true);
    var t2 := Step(cfg, c, t1, true);
    var t3 := Step(cfg, c, t2, true);
    var t4 := Step(cfg, c, t3, true);
    var t5 := Step(cfg, c, t4, true);
    assert t1.log == t.log && t3.log == t2.log && t4.log == t3.log;
    assert t5.log == t.log + [Exhausted(c, t.worker.restartCount), ComponentError(c)];
    SoloTwo(cfg, c, t4, true, []);
    SoloTwo(cfg, c, t3, true, [true]);
    SoloTwo(cfg, c, t2, true, [true] + [true]);
    SoloTwo(cfg, c, t1, true, [true] + ([true] + [true]));
    SoloTwo(cfg, c, t, true, [true] + ([true] + ([true] + [true])));
    assert [true] + ([true] + ([true] + ([true] + [true]))) == [true, true, true, true, true];
  }

  lemma PassSteps(cfg: Config, c: Component, t: Thread, crashes: bool) returns (steps: seq<bool>)
    requires t.worker.pc == AtGuard && Guard(t.worker, t.stop) && !t.worker.exhausted
    ensures Solo(cfg, c, t, steps) == Pass(cfg, c, t, crashes)
  {
    if crashes {
      CrashSteps(cfg, c, t);
      var handling := Solo(cfg, c, t, [true, true]);
      if CanRestart(cfg, handling.worker) {
        steps := RetrySteps(cfg, c, handling);
      } else {
        GiveUpSteps(cfg, c, handling);
        steps := [true, true, true, true, true];
      }
      SoloAppend(cfg, c, t, [true, true], steps);
      steps := [true, true] + steps;
    } else {
      steps := ReturnPass(cfg, c, t);
    }
  }

  // ----- the thread body -----

  /** How many of the first calls crash in a row. */
  function Crashes(outcomes: seq<bool>): nat {
    if |outcomes| == 0 || !outcomes[0] then 0 else 1 + Crashes(outcomes[1..])
  }

  lemma {:induction false} CrashesNext(outcomes: seq<bool>, n: nat)
    requires n < |outcomes| && Crashes(outcomes) >= n
    ensures outcomes[n] ==> Crashes(outcomes) >= n + 1
    ensures !outcomes[n] ==> Crashes(outcomes) == n
    decreases n
  {
    if n != 0 { CrashesNext(outcomes[1..], n - 1); }
  }

  /** The events of a thread whose loop calls crash and return as given. */
  function ThreadLog(cfg: Config, c: Component, crashes: nat): seq<Event> {
    if crashes > cfg.Limit() then Attempts(cfg, c, cfg.Limit()) + [Exhausted(c, cfg.Limit()), ComponentError(c)]
    else if crashes > 0 then Attempts(cfg, c, crashes) + [Succeeded(c, crashes)]
    else []
  }

  lemma AttemptsGrow(cfg: Config, c: Component, log: seq<Event>, n: nat)
    ensures log + Attempts(cfg, c, n) + AttemptRows(cfg, c, n + 1) == log + Attempts(cfg, c, n + 1)
  {
    assert Attempts(cfg, c, n + 1) == Attempts(cfg, c, n) + AttemptRows(cfg, c, n + 1);
  }

  /** The except block: restart, or give up for good. */
  method HandleCrash(cfg: Config, c: Component, shared: Shared, state: RestartState) returns (retry: bool)
    requires !state.exhausted
    modifies shared, state
    ensures retry == (old(state.restartCount) < cfg.maxRestarts)
    ensures retry ==> state.restartCount == old(state.restartCount) + 1 && state.hadCrash && !state.exhausted
                      && shared.log == old(shared.log) + AttemptRows(cfg, c, state.restartCount)
                      && shared.stop == old(shared.stop) && shared.failed == old(shared.failed)
    ensures !retry ==> state.restartCount == old(state.restartCount) && state.hadCrash == old(state.hadCrash)
                       && state.exhausted && shared.stop && shared.failed
                       && shared.log == old(shared.log) + [Exhausted(c, state.restartCount), ComponentError(c)]
  {
    retry := !state.exhausted && state.restartCount < cfg.maxRestarts;
    if retry {
      state.restartCount := state.restartCount + 1;
      state.hadCrash := true;
      shared.log := shared.log + [Attempted(c, state.restartCount, false)];
      if cfg.cooldownSeconds > 0 { shared.log := shared.log + [Attempted(c, state.restartCount, true)]; }
    } else {
      if state.restartCount >= cfg.maxRestarts && !state.exhausted {
        state.exhausted := true;
        shared.log := shared.log + [Exhausted(c, state.restartCount)];
      }
      shared.failed := true;
      shared.stop := true;
      shared.log := shared.log + [ComponentError(c)];
    }
  }

  /** The machine's thread is where the code is. */
  ghost predicate Mirrors(t: Thread, first: bool, calls: nat, pc: Pc, shared: Shared, state: RestartState)
    reads shared, state
  {
    && t.worker == Worker(pc, first, state.hadCrash, t.worker.isRetry, state.restartCount, state.exhausted,
                          shared.failed, calls)
    && t.stop == shared.stop && t.log == shared.log
  }

  /** One pass of the loop: the call of the component's own loop returns or crashes. */
  method OnePass(cfg: Config, c: Component, shared: Shared, state: RestartState, crashed: bool,
                 ghost t: Thread, ghost first: bool, ghost calls: nat)
    returns (again: bool)
    requires Mirrors(t, first, calls, AtGuard, shared, state) && !state.exhausted && !shared.failed
    modifies shared, state
    ensures Mirrors(Pass(cfg, c, t, crashed), false, calls + 1, if again then AtGuard else Dead, shared, state)
    ensures again == (crashed && t.worker.restartCount < cfg.maxRestarts)
  {
    var isRetry := state.hadCrash;
    state.hadCrash := false;
    if crashed {
      again := HandleCrash(cfg, c, shared, state);
    } else {
      again := false;
      if isRetry {
        shared.log := shared.log + [Succeeded(c, state.restartCount)];
        state.restartCount := 0;
      }
    }
  }

  /** Where a thread is that has crashed `calls` times. */
  ghost predicate Crashed(cfg: Config, c: Component, start: Thread, t: Thread, calls: nat) {
    && t.worker.pc == AtGuard && !t.worker.exhausted && !t.worker.failed
    && t.worker.calls == t.worker.restartCount == calls <= cfg.Limit()
    && (t.worker.firstIteration <==> calls == 0) && (t.worker.hadCrash <==> calls > 0)
    && t.stop == start.stop && t.log == start.log + Attempts(cfg, c, calls)
  }

  lemma CrashedAgain(cfg: Config, c: Component, start: Thread, t: Thread, calls: nat)
    requires Crashed(cfg, c, start, t, calls) && calls < cfg.maxRestarts
    ensures Crashed(cfg, c, start, Pass(cfg, c, t, true), calls + 1)
  {
    AttemptsGrow(cfg, c, start.log, calls);
  }

  /** How a thread ends whose first loop calls crash that often in a row. */
  ghost predicate Ends(cfg: Config, c: Component, start: Thread, t: Thread, crashes: nat) {
    && t.log == start.log + ThreadLog(cfg, c, crashes)
    && t.worker.calls == (if crashes > cfg.Limit() then cfg.Limit() + 1 else crashes + 1)
    && t.worker.failed == t.worker.exhausted == (crashes > cfg.Limit())
    && t.stop == (start.stop || t.worker.failed)
  }

  lemma ReturnEnds(cfg: Config, c: Component, start: Thread, t: Thread, calls: nat)
    requires Crashed(cfg, c, start, t, calls)
    ensures Ends(cfg, c, start, Pass(cfg, c, t, false), calls)
  {
    assert calls == 0 ==> start.log + Attempts(cfg, c, 0) == start.log + [];
    assert calls != 0 ==> start.log + Attempts(cfg, c, calls) + [Succeeded(c, calls)]
                          == start.log + ThreadLog(cfg, c, calls);
  }

  lemma GiveUpEnds(cfg: Config, c: Component, start: Thread, t: Thread, calls: nat, crashes: nat)
    requires Crashed(cfg, c, start, t, calls) && calls >= cfg.maxRestarts && crashes > calls
    ensures Ends(cfg, c, start, Pass(cfg, c, t, true), crashes)
  {
    assert start.log + Attempts(cfg, c, calls) + [Exhausted(c, calls), ComponentError(c)]
        == start.log + ThreadLog(cfg, c, crashes);
  }

  /** The thread's while loop; `outcomes` says which of its loop calls crash. With k crashes in a row it
      calls the loop min(k, limit) + 1 times and logs exactly ThreadLog; and it is a run of the step machine. */
  method WorkerTarget(cfg: Config, c: Component, shared: Shared, state: RestartState, outcomes: seq<bool>)
    returns (ghost steps: seq<bool>)
    requires |outcomes| > cfg.Limit()
    requires state.restartCount == 0 && !state.exhausted && !state.hadCrash && !shared.failed
    modifies shared, state
    ensures var start := Thread(FRESH.(pc := AtGuard), old(shared.stop), old(shared.log));
            var t := Solo(cfg, c, start, steps);
            Mirrors(t, false, t.worker.calls, Dead, shared, state) && Ends(cfg, c, start, t, Crashes(outcomes))
  {
    ghost var start := Thread(FRESH.(pc := AtGuard), shared.stop, shared.log);
    ghost var t := start;
    var firstIteration, calls := true, 0;
    steps := [];
    assert start.log + Attempts(cfg, c, 0) == start.log;
    while !shared.stop || firstIteration || state.hadCrash
      invariant t == Solo(cfg, c, start, steps) && Mirrors(t, firstIteration, calls, AtGuard, shared, state)
      invariant Crashed(cfg, c, start, t, calls) && Crashes(outcomes) >= calls
      decreases cfg.Limit() - calls
    {
      ghost var before := t;
      ghost var more := PassSteps(cfg, c, t, outcomes[calls]);
      SoloAppend(cfg, c, start, steps, more);
      t, steps := Pass(cfg, c, t, outcomes[calls]), steps + more;
      CrashesNext(outcomes, calls);
      var again := OnePass(cfg, c, shared, state, outcomes[calls], before, firstIteration, calls);
      if !again {
        if outcomes[calls] {
          GiveUpEnds(cfg, c, start, before, calls, Crashes(outcomes));
        } else {
          ReturnEnds(cfg, c, start, before, calls);
        }
        return;
      }
      CrashedAgain(cfg, c, start, before, calls);
      firstIteration, calls := false, calls + 1;
    }
    assert false;
  }
}
