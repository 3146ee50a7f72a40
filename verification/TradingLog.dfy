/** The append-only database: one log of everything written, with the event and fill tables as
    projections of it, and a store whose writes may fail at any moment. */
module TradingLog {
  import opened Prelude
  import opened Ledger
  import opened PaperExecution
  import opened Gate

  datatype Stage =
    | StartedStage | ExitStage | SignalStage | RiskStage | SizeStage | AttemptStage | ResultStage | NoExecutionStage

  /** Pipeline order; the exit scan comes right after the start. */
  function Rank(s: Stage): nat {
    match s
    case StartedStage => 0
    case ExitStage => 1
    case SignalStage => 2
    case RiskStage => 3
    case SizeStage => 4
    case AttemptStage => 5
    case ResultStage => 6
    case NoExecutionStage => 7
  }

  datatype Kind =
    | CycleStarted | ExitEvaluated | ExitSignalGenerated | OrderExecuted | CycleFinished | SignalGenerated
    | RiskRejected | RiskChecked | PositionSized | ExecutionAttempted | ExecutionGateBlocked
    | ShadowRecorded | ExecutionResult

  datatype Status =
    | StatusExitExecuted | StatusNoSignal | StatusAiRejected | StatusRiskRejected | StatusSizeRejected
    | StatusGateBlocked | StatusShadowRecorded | StatusExecuted | StatusNoExecution
    | StatusError

  datatype Event = Event(kind: Kind, stage: Stage, status: Option<Status>, symbol: string,
                         side: Option<Side>, mode: Mode, reason: Option<string>)

  datatype RunnerKind = LoopStarted | LoopFinished | CycleError | RunnerStarted | RunnerStopped

  datatype Write =
    | EventRow(event: Event)
    | RunnerRow(kind: RunnerKind)
    | BaselineRow(day: int, amount: real)
    | ExecutionRow(order: Order, fill: Fill)
    | ShadowRow(symbol: string, notional: real, referencePrice: real, simulatedPrice: real)

  /** Rows of the event table; the others live in their own tables. */
  predicate IsEvent(w: Write) { w.EventRow? || w.RunnerRow? || w.BaselineRow? }

  function EventCount(log: seq<Write>): nat {
    if |log| == 0 then 0 else EventCount(log[..|log| - 1]) + (if IsEvent(log[|log| - 1]) then 1 else 0)
  }

  /** The fills in the order of their ids. */
  function FillsOf(log: seq<Write>): seq<Fill> {
    if |log| == 0 then []
    else FillsOf(log[..|log| - 1]) + (if log[|log| - 1].ExecutionRow? then [log[|log| - 1].fill] else [])
  }

  function OrdersOf(log: seq<Write>): seq<Order> {
    if |log| == 0 then []
    else OrdersOf(log[..|log| - 1]) + (if log[|log| - 1].ExecutionRow? then [log[|log| - 1].order] else [])
  }

  lemma {:induction false} FillsAppend(a: seq<Write>, b: seq<Write>)
    ensures FillsOf(a + b) == FillsOf(a) + FillsOf(b)
  {
    if |b| == 0 {
      assert a + b == a;
    } else {
      FillsAppend(a, b[..|b| - 1]);
      assert (a + b)[..|a + b| - 1] == a + b[..|b| - 1];
    }
  }

  lemma {:induction false} CountAppend(a: seq<Write>, b: seq<Write>)
    ensures EventCount(a + b) == EventCount(a) + EventCount(b)
  {
    if |b| == 0 {
      assert a + b == a;
    } else {
      CountAppend(a, b[..|b| - 1]);
      assert (a + b)[..|a + b| - 1] == a + b[..|b| - 1];
    }
  }

  /** Everything but the two tables of executions and shadow executions takes an event id. */
  lemma CountedIff(log: seq<Write>, w: Write)
    ensures EventCount([]) == 0
    ensures EventCount(log + [w]) == EventCount(log) + if w.ExecutionRow? || w.ShadowRow? then 0 else 1
  {
    assert (log + [w])[..|log|] == log;
  }

  /** The order a fill belongs to. */
  predicate SameTrade(o: Order, f: Fill) {
    o.symbol == f.symbol && o.side == f.side && o.createdAt == f.filledAt
  }

  /** A row that a cycle may write. */
  predicate CycleRow(w: Write) {
    !w.BaselineRow? && !w.RunnerRow? && (w.ExecutionRow? ==> SameTrade(w.order, w.fill))
  }

  /** The writes that happen when the store fails after n of them. */
  function Upto<T>(ws: seq<T>, n: nat): seq<T> { if n < |ws| then ws[..n] else ws }

  /** A crashed step leaves a prefix of its fills. */
  lemma FillsUpto(ws: seq<Write>, n: nat)
    ensures FillsOf(Upto(ws, n)) <= FillsOf(ws)
  {
    if n < |ws| {
      FillsAppend(ws[..n], ws[n..]);
      assert ws == ws[..n] + ws[n..];
    }
  }

  /** The events whose ids a cycle collects in its result. */
  predicate Tracked(w: Write) {
    w.EventRow? && (w.event.kind == CycleStarted || w.event.kind == ExitSignalGenerated
                    || w.event.kind == OrderExecuted || w.event.kind == CycleFinished
                    || w.event.kind == SignalGenerated || w.event.kind == ShadowRecorded)
  }

  /** Ids are assigned by position in the event table; n rows were there before. */
  function TrackedIds(n: nat, ws: seq<Write>): seq<nat> {
    if |ws| == 0 then []
    else
      var front, w := ws[..|ws| - 1], ws[|ws| - 1];
      TrackedIds(n, front) + (if Tracked(w) then [n + EventCount(front) + 1] else [])
  }

  lemma {:induction false} TrackedAppend(n: nat, a: seq<Write>, b: seq<Write>)
    ensures TrackedIds(n, a + b) == TrackedIds(n, a) + TrackedIds(n + EventCount(a), b)
  {
    if |b| == 0 {
      assert a + b == a;
    } else {
      var front := b[..|b| - 1];
      TrackedAppend(n, a, front);
      CountAppend(a, front);
      assert (a + b)[..|a + b| - 1] == a + front;
    }
  }

  /** Collected ids increase strictly and belong to rows written by these writes. */
  lemma {:induction false} TrackedIncrease(n: nat, ws: seq<Write>)
    ensures forall i, j :: 0 <= i < j < |TrackedIds(n, ws)| ==> TrackedIds(n, ws)[i] < TrackedIds(n, ws)[j]
    ensures forall i :: 0 <= i < |TrackedIds(n, ws)| ==> n < TrackedIds(n, ws)[i] <= n + EventCount(ws)
  {
    if |ws| != 0 { TrackedIncrease(n, ws[..|ws| - 1]); }
  }

  lemma RecordedSoFar(log: seq<Write>, ws: seq<Write>, i: nat)
    requires i < |ws|
    ensures log + ws[..i] + [ws[i]] == log + ws[..i + 1]
    ensures TrackedIds(EventCount(log), ws[..i + 1])
         == TrackedIds(EventCount(log), ws[..i]) + (if Tracked(ws[i]) then [EventCount(log + ws[..i + 1])] else [])
  {
    assert ws[..i + 1] == ws[..i] + [ws[i]] && ws[..i + 1][..i] == ws[..i];
    CountAppend(log, ws[..i + 1]);
  }

  datatype Fault = StoreFault

  class TradingStore {
    var log: seq<Write>
    var budget: nat  // writes that still succeed

    constructor (log: seq<Write>, budget: nat)
      ensures this.log == log && this.budget == budget
    {
      this.log, this.budget := log, budget;
    }

    /** The environment decides how many further writes get through. */
    method Weather(n: nat)
      modifies this`budget
      ensures budget == n
    {
      budget := n;
    }

    /** One commit. */
    method Record(w: Write) returns (r: Result<nat, Fault>)
      modifies this
      ensures old(budget) == 0 ==> r == Err(StoreFault) && log == old(log) && budget == 0
      ensures old(budget) > 0 ==> r == Ok(EventCount(log)) && log == old(log) + [w] && budget == old(budget) - 1
    {
      if budget == 0 { return Err(StoreFault); }
      log, budget := log + [w], budget - 1;
      return Ok(EventCount(log));
    }

    /** Commits in order until one fails, collecting the ids the cycle keeps. */
    method RecordAll(ws: seq<Write>) returns (r: Result<seq<nat>, Fault>)
      modifies this
      ensures log == old(log) + Upto(ws, old(budget))
      ensures old(budget) < |ws| ==> r == Err(StoreFault)
      ensures old(budget) >= |ws|
              ==> r == Ok(TrackedIds(EventCount(old(log)), ws)) && budget == old(budget) - |ws|
    {
      var ids: seq<nat> := [];
      var i := 0;
      while i < |ws|
        invariant 0 <= i <= |ws| && i <= old(budget) && budget == old(budget) - i
        invariant log == old(log) + ws[..i]
        invariant ids == TrackedIds(EventCount(old(log)), ws[..i])
      {
        var recorded := Record(ws[i]);
        if recorded.Err? { return Err(StoreFault); }
        RecordedSoFar(old(log), ws, i);
        if Tracked(ws[i]) { ids := ids + [recorded.value]; }
        i := i + 1;
      }
      assert ws[..i] == ws;
      return Ok(ids);
    }
  }
}
