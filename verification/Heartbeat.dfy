/** trading/runtime/supervisor.py and routes_runtime.py: the heartbeat monitor, and the stale flag that the
    dashboard derives from the events it logged. */
module Heartbeat {
  import opened Prelude

  datatype Event = Heartbeat(at: int) | Lost(at: int) | Recovered(at: int)

  const STALE_SECONDS := 120
  const RECOVERY_CONFIRM_SECONDS := 60

  // ----- one check -----

  function LatestBeat(log: seq<Event>): Option<int> {
    if |log| == 0 then None
    else if log[|log| - 1].Heartbeat? then Some(log[|log| - 1].at)
    else LatestBeat(log[..|log| - 1])
  }

  datatype Monitor = Monitor(alerted: bool, log: seq<Event>)

  predicate Fresh(log: seq<Event>, now: int) {
    var beat := LatestBeat(log);
    beat != None && beat.value >= now - STALE_SECONDS
  }

  predicate Stale(log: seq<Event>, now: int) {
    var beat := LatestBeat(log);
    beat != None && beat.value < now - STALE_SECONDS
  }

  predicate Confirmed(log: seq<Event>, now: int) {
    var beat := LatestBeat(log);
    beat != None && beat.value >= now - RECOVERY_CONFIRM_SECONDS
  }

  function Check(m: Monitor, now: int): Monitor {
    if Stale(m.log, now) then Monitor(true, if m.alerted then m.log else m.log + [Lost(now)])
    else if Fresh(m.log, now) then
      Monitor(false, if m.alerted && Confirmed(m.log, now) then m.log + [Recovered(now)] else m.log)
    else m
  }

  /** The database table the monitor and the heartbeat thread write to. */
  class EventStore {
    var log: seq<Event>

    constructor (earlier: seq<Event>)
      ensures log == earlier
    {
      log := earlier;
    }
  }

  class HeartbeatMonitor {
    var alerted: bool
    var lastConfirmed: Option<int>

    constructor ()
      ensures !alerted && lastConfirmed == None
    {
      alerted, lastConfirmed := false, None;
    }

    method CheckHeartbeatStale(store: EventStore, now: int)
      modifies this, store
      ensures Monitor(alerted, store.log) == Check(Monitor(old(alerted), old(store.log)), now)
      ensures lastConfirmed == if Fresh(old(store.log), now) then LatestBeat(old(store.log)) else old(lastConfirmed)
    {
      var staleThreshold, confirmThreshold := now - STALE_SECONDS, now - RECOVERY_CONFIRM_SECONDS;
      var latest := LatestBeat(store.log);
      if latest == None { return; }
      if latest.value >= staleThreshold {
        lastConfirmed := latest;
        if alerted {
          alerted := false;
          if lastConfirmed != None && lastConfirmed.value >= confirmThreshold {
            store.log := store.log + [Recovered(now)];
          }
        }
      } else if !alerted {
        alerted := true;
        store.log := store.log + [Lost(now)];
      }
    }
  }

  // ----- what the dashboard derives -----

  function Newer(a: Option<int>, b: int): Option<int> {
    if a == None || b > a.value then Some(b) else a
  }

  function LatestLost(log: seq<Event>): Option<int> {
    if |log| == 0 then None
    else if log[|log| - 1].Lost? then Newer(LatestLost(log[..|log| - 1]), log[|log| - 1].at)
    else LatestLost(log[..|log| - 1])
  }

  function LatestRecovered(log: seq<Event>): Option<int> {
    if |log| == 0 then None
    else if log[|log| - 1].Recovered? then Newer(LatestRecovered(log[..|log| - 1]), log[|log| - 1].at)
    else LatestRecovered(log[..|log| - 1])
  }

  predicate After(lost: Option<int>, recovered: Option<int>) {
    lost != None && (recovered == None || lost.value > recovered.value)
  }

  function StaleAlerting(log: seq<Event>): bool { After(LatestLost(log), LatestRecovered(log)) }

  function Latest(a: Option<int>, b: Option<int>): Option<int> {
    match b case None => a case Some(t) => Newer(a, t)
  }

  /** The status endpoint's loop over the events, newest first. */
  method ReadStaleAlerting(log: seq<Event>) returns (alerting: bool)
    ensures alerting == StaleAlerting(log)
  {
    var lost: Option<int>, recovered: Option<int> := None, None;
    var n := |log|;
    assert log[..n] == log;
    while n > 0
      invariant 0 <= n <= |log|
      invariant LatestLost(log) == Latest(LatestLost(log[..n]), lost)
      invariant LatestRecovered(log) == Latest(LatestRecovered(log[..n]), recovered)
    {
      var e := log[n - 1];
      assert log[..n][..n - 1] == log[..n - 1] && log[..n][n - 1] == e;
      if e.Recovered? {
        if recovered == None || e.at > recovered.value { recovered := Some(e.at); }
      } else if e.Lost? {
        if lost == None || e.at > lost.value { lost := Some(e.at); }
      }
      n := n - 1;
    }
    alerting := lost != None && (recovered == None || lost.value > recovered.value);
  }

  lemma {:induction false} LatestLostIs(log: seq<Event>)
    ensures LatestLost(log) == None <==> forall n :: 0 <= n < |log| ==> !log[n].Lost?
    ensures LatestLost(log) != None ==> exists n :: 0 <= n < |log| && log[n] == Lost(LatestLost(log).value)
    ensures forall n :: 0 <= n < |log| && log[n].Lost? ==> LatestLost(log) != None && log[n].at <= LatestLost(log).value
  {
    if |log| != 0 { LatestLostIs(log[..|log| - 1]); }
  }

  lemma {:induction false} LatestRecoveredIs(log: seq<Event>)
    ensures LatestRecovered(log) != None
            ==> exists n :: 0 <= n < |log| && log[n] == Recovered(LatestRecovered(log).value)
    ensures forall n :: 0 <= n < |log| && log[n].Recovered?
              ==> LatestRecovered(log) != None && log[n].at <= LatestRecovered(log).value
  {
    if |log| != 0 { LatestRecoveredIs(log[..|log| - 1]); }
  }

  /** The dashboard shows an alert exactly if some lost event is younger than every recovered one. */
  lemma AlertingIff(log: seq<Event>)
    ensures StaleAlerting(log)
       <==> exists n :: 0 <= n < |log| && log[n].Lost?
                        && forall m :: 0 <= m < |log| && log[m].Recovered? ==> log[m].at < log[n].at
  {
    LatestLostIs(log);
    LatestRecoveredIs(log);
  }

  /** The beat a check looks at is the last one logged. */
  lemma {:induction false} LatestBeatIs(log: seq<Event>, n: nat)
    requires n < |log| && log[n].Heartbeat? && forall m :: n < m < |log| ==> !log[m].Heartbeat?
    ensures LatestBeat(log) == Some(log[n].at)
  {
    if n < |log| - 1 { LatestBeatIs(log[..|log| - 1], n); }
  }

  // ----- runs of beats and checks -----

  datatype Step = Beat(at: int) | CheckAt(now: int)

  function Next(m: Monitor, s: Step): Monitor {
    match s
    case Beat(at) => m.(log := m.log + [Heartbeat(at)])
    case CheckAt(now) => Check(m, now)
  }

  function Run(earlier: seq<Event>, steps: seq<Step>): Monitor {
    if |steps| == 0 then Monitor(false, earlier)
    else Next(Run(earlier, steps[..|steps| - 1]), steps[|steps| - 1])
  }

  predicate Alerts(e: Event) { e.Lost? || e.Recovered? }

  /** The alert events of a log, without the beats. */
  function AlertsOf(log: seq<Event>): seq<Event> {
    if |log| == 0 then []
    else if Alerts(log[|log| - 1]) then AlertsOf(log[..|log| - 1]) + [log[|log| - 1]]
    else AlertsOf(log[..|log| - 1])
  }

  lemma AlertsSnoc(log: seq<Event>, e: Event)
    ensures AlertsOf(log + [e]) == if Alerts(e) then AlertsOf(log) + [e] else AlertsOf(log)
  {
    assert (log + [e])[..|log|] == log;
  }

  predicate Rises(m: Monitor, s: Step) { !m.alerted && Next(m, s).alerted }

  predicate Falls(m: Monitor, s: Step) { m.alerted && !Next(m, s).alerted }

  /** A fall that logs nothing: the check sees a beat between 60 and 120 seconds old. */
  predicate Silent(m: Monitor, s: Step) { Falls(m, s) && !Confirmed(m.log, s.now) }

  /** What each step logs: a lost event exactly when the flag rises, a recovered event exactly when it falls
      on a beat at most 60 seconds old. */
  lemma StepAlerts(m: Monitor, s: Step)
    ensures (Rises(m, s) || Falls(m, s)) ==> s.CheckAt?
    ensures AlertsOf(Next(m, s).log)
         == AlertsOf(m.log) + (if Rises(m, s) then [Lost(s.now)]
                               else if Falls(m, s) && !Silent(m, s) then [Recovered(s.now)] else [])
    ensures Rises(m, s) ==> LatestBeat(m.log) != None && s.now - LatestBeat(m.log).value > STALE_SECONDS
  {
    assert AlertsOf(m.log) + [] == AlertsOf(m.log);
    match s
    case Beat(at) => AlertsSnoc(m.log, Heartbeat(at));
    case CheckAt(now) => AlertsSnoc(m.log, Lost(now)); AlertsSnoc(m.log, Recovered(now));
  }

  /** The times: the flag rises on a beat more than 120 seconds old and falls on one at most that old; the fall is
      silent when the beat is more than 60 seconds old. Without any beat a check does nothing. */
  lemma CheckTimes(m: Monitor, now: int)
    ensures var s, beat := CheckAt(now), LatestBeat(m.log);
            && (Rises(m, s) <==> !m.alerted && beat != None && now - beat.value > 120)
            && (Falls(m, s) <==> m.alerted && beat != None && now - beat.value <= 120)
            && (Silent(m, s) <==> m.alerted && beat != None && 60 < now - beat.value <= 120)
            && (beat == None ==> Next(m, s) == m)
  {}

  predicate LastIsLost(alerts: seq<Event>) { |alerts| != 0 && alerts[|alerts| - 1].Lost? }

  ghost predicate LostBetween(alerts: seq<Event>, i: int, j: int) {
    exists k :: i < k < j && 0 <= k < |alerts| && alerts[k].Lost?
  }

  ghost predicate Separated(alerts: seq<Event>, from: nat) {
    forall i, j :: from <= i < j < |alerts| && alerts[i].Recovered? && alerts[j].Recovered?
                   ==> LostBetween(alerts, i, j)
  }

  /** In every run there is a lost event between any two recovered ones, and none is recovered first. */
  lemma {:induction false} RecoveriesSeparated(earlier: seq<Event>, steps: seq<Step>)
    ensures var m := Run(earlier, steps);
            var n, alerts := |AlertsOf(earlier)|, AlertsOf(m.log);
            n <= |alerts| && alerts[..n] == AlertsOf(earlier) && Separated(alerts, n)
            && (m.alerted ==> n < |alerts| && LastIsLost(alerts))
            && (n < |alerts| ==> alerts[n].Lost?)
  {
    if |steps| != 0 {
      var front, s := steps[..|steps| - 1], steps[|steps| - 1];
      RecoveriesSeparated(earlier, front);
      StepAlerts(Run(earlier, front), s);
      AppendSeparated(AlertsOf(Run(earlier, front).log), |AlertsOf(earlier)|, AlertsOf(Run(earlier, steps).log));
    }
  }

  lemma AppendSeparated(alerts: seq<Event>, from: nat, after: seq<Event>)
    requires from <= |alerts| && Separated(alerts, from)
    requires after == alerts || (|after| == |alerts| + 1 && after[..|alerts|] == alerts
                                 && (after[|alerts|].Lost? || (LastIsLost(alerts) && |alerts| > from)))
    ensures Separated(after, from)
  {
    forall i, j | from <= i < j < |after| && after[i].Recovered? && after[j].Recovered?
      ensures LostBetween(after, i, j)
    {
      if j < |alerts| {
        assert alerts[i] == after[i] && alerts[j] == after[j];
        assert LostBetween(alerts, i, j);
        var k :| i < k < j && 0 <= k < |alerts| && alerts[k].Lost?;
        assert after[k].Lost?;
      } else {
        assert after[|alerts| - 1] == alerts[|alerts| - 1];
      }
    }
  }

  // ----- the two flags -----

  predicate Precede(log: seq<Event>, t: int) {
    forall n :: 0 <= n < |log| && Alerts(log[n]) ==> log[n].at < t
  }

  /** Check times increase, and come after every alert of the earlier log. */
  ghost predicate Clocked(earlier: seq<Event>, steps: seq<Step>) {
    && (forall i :: 0 <= i < |steps| && steps[i].CheckAt? ==> Precede(earlier, steps[i].now))
    && forall i, j :: 0 <= i < j < |steps| && steps[i].CheckAt? && steps[j].CheckAt? ==> steps[i].now < steps[j].now
  }

  lemma ClockedFront(earlier: seq<Event>, steps: seq<Step>, n: nat)
    requires Clocked(earlier, steps) && n <= |steps|
    ensures Clocked(earlier, steps[..n])
  {
    var front := steps[..n];
    assert forall i :: 0 <= i < n ==> front[i] == steps[i];
  }

  lemma NextPrecedes(m: Monitor, s: Step, t: int)
    requires Precede(m.log, t) && (s.CheckAt? ==> s.now < t)
    ensures Precede(Next(m, s).log, t)
  {}

  lemma {:induction false} RunPrecedes(earlier: seq<Event>, steps: seq<Step>, t: int)
    requires Precede(earlier, t) && forall i :: 0 <= i < |steps| && steps[i].CheckAt? ==> steps[i].now < t
    ensures Precede(Run(earlier, steps).log, t)
  {
    if |steps| != 0 {
      RunPrecedes(earlier, steps[..|steps| - 1], t);
      NextPrecedes(Run(earlier, steps[..|steps| - 1]), steps[|steps| - 1], t);
    }
  }

  lemma {:induction false} LatestPrecede(log: seq<Event>, t: int)
    requires Precede(log, t)
    ensures LatestLost(log) != None ==> LatestLost(log).value < t
    ensures LatestRecovered(log) != None ==> LatestRecovered(log).value < t
  {
    if |log| != 0 {
      assert Precede(log[..|log| - 1], t);
      LatestPrecede(log[..|log| - 1], t);
    }
  }

  lemma FlagSnoc(log: seq<Event>, e: Event)
    requires Alerts(e) ==> Precede(log, e.at)
    ensures StaleAlerting(log + [e]) == if Alerts(e) then e.Lost? else StaleAlerting(log)
  {
    assert (log + [e])[..|log|] == log;
    if Alerts(e) { LatestPrecede(log, e.at); }
  }

  /** One step moves the derived flag only by what it logs. */
  lemma FlagMoves(m: Monitor, s: Step)
    requires s.CheckAt? ==> Precede(m.log, s.now)
    ensures StaleAlerting(Next(m, s).log)
         == (Rises(m, s) || (StaleAlerting(m.log) && (!Falls(m, s) || Silent(m, s))))
  {
    match s
    case Beat(at) => FlagSnoc(m.log, Heartbeat(at));
    case CheckAt(now) => FlagSnoc(m.log, Lost(now)); FlagSnoc(m.log, Recovered(now));
  }

  lemma LastStepFlag(earlier: seq<Event>, steps: seq<Step>)
    requires Clocked(earlier, steps) && |steps| != 0
    ensures var m, s := Run(earlier, steps[..|steps| - 1]), steps[|steps| - 1];
            StaleAlerting(Run(earlier, steps).log)
            == (Rises(m, s) || (StaleAlerting(m.log) && (!Falls(m, s) || Silent(m, s))))
  {
    var front, s := steps[..|steps| - 1], steps[|steps| - 1];
    if s.CheckAt? {
      assert forall i :: 0 <= i < |front| ==> front[i] == steps[i];
      RunPrecedes(earlier, front, s.now);
    }
    FlagMoves(Run(earlier, front), s);
  }

  /** Whenever the monitor is alerted, the dashboard says so. */
  lemma {:induction false} AlertedIsShown(earlier: seq<Event>, steps: seq<Step>)
    requires Clocked(earlier, steps)
    ensures Run(earlier, steps).alerted ==> StaleAlerting(Run(earlier, steps).log)
  {
    if |steps| != 0 {
      ClockedFront(earlier, steps, |steps| - 1);
      AlertedIsShown(earlier, steps[..|steps| - 1]);
      LastStepFlag(earlier, steps);
    }
  }

  ghost predicate InStep(earlier: seq<Event>, steps: seq<Step>, n: nat)
    requires n <= |steps|
  {
    StaleAlerting(Run(earlier, steps[..n]).log) == Run(earlier, steps[..n]).alerted
  }

  ghost predicate SilentAt(earlier: seq<Event>, steps: seq<Step>, n: nat)
    requires n < |steps|
  {
    Silent(Run(earlier, steps[..n]), steps[n])
  }

  lemma StepInStep(earlier: seq<Event>, steps: seq<Step>, n: nat)
    requires Clocked(earlier, steps) && n < |steps| && InStep(earlier, steps, n)
    ensures InStep(earlier, steps, n + 1) <==> !SilentAt(earlier, steps, n)
  {
    ClockedFront(earlier, steps, n + 1);
    assert steps[..n + 1][..n] == steps[..n];
    LastStepFlag(earlier, steps[..n + 1]);
  }

  lemma {:induction false} AllInStep(earlier: seq<Event>, steps: seq<Step>, n: nat)
    requires Clocked(earlier, steps) && n <= |steps| && InStep(earlier, steps, 0)
    requires forall k :: 0 <= k < n ==> !SilentAt(earlier, steps, k)
    ensures InStep(earlier, steps, n)
  {
    if n != 0 {
      AllInStep(earlier, steps, n - 1);
      assert !SilentAt(earlier, steps, n - 1);
      StepInStep(earlier, steps, n - 1);
    }
  }

  /** The two flags are equal throughout a run if and only if the dashboard did not already show an alert at
      the start and every clearing check saw a beat at most 60 seconds old. */
  lemma FlagsEqualIff(earlier: seq<Event>, steps: seq<Step>)
    requires Clocked(earlier, steps)
    ensures (forall n :: 0 <= n <= |steps| ==> InStep(earlier, steps, n))
            <==> (!StaleAlerting(earlier) && forall n :: 0 <= n < |steps| ==> !SilentAt(earlier, steps, n))
  {
    assert steps[..0] == [];
    assert InStep(earlier, steps, 0) <==> !StaleAlerting(earlier);
    if InStep(earlier, steps, 0) && forall n :: 0 <= n < |steps| ==> !SilentAt(earlier, steps, n) {
      forall n | 0 <= n <= |steps| ensures InStep(earlier, steps, n) { AllInStep(earlier, steps, n); }
    }
    if forall n :: 0 <= n <= |steps| ==> InStep(earlier, steps, n) {
      assert InStep(earlier, steps, 0);
      forall n | 0 <= n < |steps| ensures !SilentAt(earlier, steps, n) {
        assert InStep(earlier, steps, n) && InStep(earlier, steps, n + 1);
        StepInStep(earlier, steps, n);
      }
    }
  }

  /** After a silent recovery the dashboard keeps showing the alert for as long as beats stay fresh. */
  lemma {:induction false} SilentRecoverySticks(earlier: seq<Event>, steps: seq<Step>, n: nat)
    requires Clocked(earlier, steps) && n < |steps| && SilentAt(earlier, steps, n)
    requires forall k :: n < k < |steps| ==> !Rises(Run(earlier, steps[..k]), steps[k])
    ensures StaleAlerting(Run(earlier, steps).log) && !Run(earlier, steps).alerted
  {
    var front := steps[..|steps| - 1];
    ClockedFront(earlier, steps, |steps| - 1);
    LastStepFlag(earlier, steps);
    if n == |steps| - 1 {
      AlertedIsShown(earlier, front);
    } else {
      assert front[..n] == steps[..n];
      assert forall k :: n < k < |front| ==> front[..k] == steps[..k] && front[k] == steps[k];
      SilentRecoverySticks(earlier, front, n);
    }
  }

  const SILENT_RUN := [Beat(0), CheckAt(121), Beat(130), CheckAt(200)]

  /** Such a recovery happens: lost at 121, a beat at 130, and at 200 that beat is 70 seconds old. */
  lemma SilentRecoveryHappens()
    ensures Clocked([], SILENT_RUN) && SilentAt([], SILENT_RUN, 3)
    ensures !Run([], SILENT_RUN).alerted && StaleAlerting(Run([], SILENT_RUN).log)
  {
    var steps := SILENT_RUN;
    assert steps[..1] == [Beat(0)] && steps[..2] == [Beat(0), CheckAt(121)];
    assert steps[..3] == [Beat(0), CheckAt(121), Beat(130)];
    assert Run([], []) == Monitor(false, []);
    assert steps[..1][..0] == [];
    assert Run([], steps[..1]) == Monitor(false, [Heartbeat(0)]);
    assert steps[..2][..1] == steps[..1];
    assert Run([], steps[..2]) == Monitor(true, [Heartbeat(0), Lost(121)]);
    assert steps[..3][..2] == steps[..2];
    assert Run([], steps[..3]) == Monitor(true, [Heartbeat(0), Lost(121), Heartbeat(130)]);
    assert SilentAt([], steps, 3);
    SilentRecoverySticks([], steps, 3);
  }
}
