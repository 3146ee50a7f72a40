/** trading/dashboard_api/routes_analytics.py: equity at the end of each day, the current day's profit, and
    the daily profit history. */
module Analytics {
  import opened Prelude
  import opened Sums
  import opened StableSort
  import opened Ledger
  import opened Accounting
  import opened Runner
  import opened FillFolds

  datatype Entry = Entry(day: int, amount: real)

  datatype Summary = Summary(currentEquity: real, dayStartEquity: real, dailyPnl: real, dailyPct: real,
                             snapshots: seq<Entry>, history: seq<Entry>)

  datatype SummaryError =
    | NegativeInitialCash
    | ZeroLot  // a BUY divided by the quantity zero of its lot

  const WINDOW := 30

  function FillDay(f: Fill): int { DayOf(f.filledAt) }

  function UpTo(d: int): Fill -> bool { f => FillDay(f) <= d }

  function Before(d: int): Fill -> bool { f => FillDay(f) < d }

  function On(d: int): Fill -> bool { f => FillDay(f) == d }

  function DaysOf(fills: seq<Fill>): seq<int> {
    if |fills| == 0 then []
    else
      var days, d := DaysOf(fills[..|fills| - 1]), FillDay(fills[|fills| - 1]);
      if d in days then days else days + [d]
  }

  function LotValues(lots: map<string, Lot>): map<string, real> {
    map s | s in lots :: lots[s].avg * lots[s].qty
  }

  ghost function TallyEquity(t: Tally): real { t.cash + Sum(LotValues(t.lots)) }

  /** Equity of the analytics fold over the fills that satisfy p. */
  ghost function EquityWhere(cash: real, fills: seq<Fill>, p: Fill -> bool): real {
    TallyEquity(AnalyticsFold(cash, Filter(fills, p)))
  }

  ghost function DayEnd(cash: real, fills: seq<Fill>, d: int): real { EquityWhere(cash, fills, UpTo(d)) }

  ghost function Current(cash: real, fills: seq<Fill>): real { TallyEquity(AnalyticsFold(cash, fills)) }

  // ----- days -----

  lemma DayOrdered(fills: seq<Fill>)
    requires Ordered(fills, FilledAt)
    ensures Ordered(fills, FillDay)
  {
    forall i, j | 0 <= i < j < |fills| ensures FillDay(fills[i]) <= FillDay(fills[j]) {
      assert FilledAt(fills[i]) <= FilledAt(fills[j]);
    }
  }

  ghost predicate Increasing(days: seq<int>) { forall i, j :: 0 <= i < j < |days| ==> days[i] < days[j] }

  /** The days of a chronological log, first seen first, are its days in increasing order. */
  lemma {:induction false} DaysIncreasing(fills: seq<Fill>)
    requires Ordered(fills, FillDay)
    ensures Increasing(DaysOf(fills))
    ensures forall d :: d in DaysOf(fills) <==> exists n :: 0 <= n < |fills| && FillDay(fills[n]) == d
    ensures |fills| != 0 ==> var ds := DaysOf(fills); |ds| != 0 && ds[|ds| - 1] == FillDay(fills[|fills| - 1])
  {
    if |fills| != 0 {
      var front, f := fills[..|fills| - 1], fills[|fills| - 1];
      OrderedFront(fills, FillDay);
      DaysIncreasing(front);
      forall d ensures d in DaysOf(fills) <==> exists n :: 0 <= n < |fills| && FillDay(fills[n]) == d {
        DaySnoc(front, f, d);
        assert fills == front + [f];
      }
      forall n | 0 <= n < |front| ensures FillDay(front[n]) <= FillDay(f) { assert front[n] == fills[n]; }
      LastDay(DaysOf(front), FillDay(f));
    }
  }

  lemma LastDay(days: seq<int>, d: int)
    requires Increasing(days) && forall e :: e in days ==> e <= d
    ensures d in days ==> days[|days| - 1] == d
    ensures d !in days ==> Increasing(days + [d])
  {
    forall i | 0 <= i < |days| ensures days[i] <= d && (d !in days ==> days[i] < d) { assert days[i] in days; }
    if d in days {
      var i :| 0 <= i < |days| && days[i] == d;
      if i < |days| - 1 { assert days[|days| - 1] in days; }
    }
  }

  lemma DaySnoc(front: seq<Fill>, f: Fill, d: int)
    ensures var fills := front + [f];
            (exists n :: 0 <= n < |fills| && FillDay(fills[n]) == d)
            <==> (FillDay(f) == d || exists n :: 0 <= n < |front| && FillDay(front[n]) == d)
  {
    var fills := front + [f];
    assert fills[|front|] == f;
    forall n | 0 <= n < |front| ensures fills[n] == front[n] {}
  }

  lemma SortedDays(days: seq<int>)
    requires Increasing(days)
    ensures Sort(days, Identity) == days
  {
    SortOrdered(days, Identity);
  }

  function Identity(d: int): int { d }

  /** In a chronological log, the fills of a day come right after those of all earlier days. */
  lemma {:induction false} DaySplit(fills: seq<Fill>, d: int)
    requires Ordered(fills, FillDay)
    ensures Filter(fills, UpTo(d)) == Filter(fills, Before(d)) + Filter(fills, On(d))
  {
    if |fills| != 0 {
      var front, f := fills[..|fills| - 1], fills[|fills| - 1];
      OrderedFront(fills, FillDay);
      DaySplit(front, d);
      if FillDay(f) < d { NoneOn(fills, d); }
    }
  }

  lemma NoneOn(fills: seq<Fill>, d: int)
    requires Ordered(fills, FillDay) && |fills| != 0 && FillDay(fills[|fills| - 1]) < d
    ensures Filter(fills[..|fills| - 1], On(d)) == []
  {
    var front := fills[..|fills| - 1];
    FilterSubset(front, On(d));
    var kept := Filter(front, On(d));
    if |kept| != 0 {
      assert kept[0] in front && On(d)(kept[0]);
      LastIsLargest(fills, kept[0], FillDay);
    }
  }

  /** Nothing happens between two consecutive days of the log. */
  lemma BeforeNextDay(fills: seq<Fill>, k: nat)
    requires Ordered(fills, FillDay) && k < |DaysOf(fills)|
    ensures var days := DaysOf(fills);
            Filter(fills, Before(days[k])) == if k == 0 then [] else Filter(fills, UpTo(days[k - 1]))
  {
    DaysIncreasing(fills);
    var days := DaysOf(fills);
    forall n | 0 <= n < |fills| ensures exists j :: 0 <= j < |days| && days[j] == FillDay(fills[n]) {
      assert FillDay(fills[n]) in days;
    }
    if k == 0 { FilterNone(fills, Before(days[0])); } else { SameFilter(fills, Before(days[k]), UpTo(days[k - 1])); }
  }

  lemma ThroughLastDay(fills: seq<Fill>)
    requires Ordered(fills, FillDay) && |fills| != 0
    ensures var days := DaysOf(fills); |days| != 0 && Filter(fills, UpTo(days[|days| - 1])) == fills
  {
    DaysIncreasing(fills);
    forall n | 0 <= n < |fills| ensures FillDay(fills[n]) <= FillDay(fills[|fills| - 1]) {
      LastIsLargest(fills, fills[n], FillDay);
    }
    FilterAll(fills, UpTo(FillDay(fills[|fills| - 1])));
  }

  // ----- the report -----

  function First(days: seq<int>): nat { if |days| <= WINDOW then 0 else |days| - WINDOW }

  function Percent(pnl: real, start: real): real { if start > 0.0 then pnl / start * 100.0 else 0.0 }

  ghost function StartOfDay(cash: real, fills: seq<Fill>, today: int): real {
    if today in DaysOf(fills) then EquityWhere(cash, fills, Before(today)) else cash
  }

  /** What the history entry of day k is measured from: the initial cash for the first day shown, even when
      older days are cut off. */
  ghost function PreviousEnd(cash: real, fills: seq<Fill>, days: seq<int>, k: nat): real
    requires First(days) <= k <= |days|
  {
    if k == First(days) then cash else DayEnd(cash, fills, days[k - 1])
  }

  ghost function HistoryAt(cash: real, fills: seq<Fill>, days: seq<int>, k: nat): Entry
    requires First(days) <= k < |days|
  {
    Entry(days[k], DayEnd(cash, fills, days[k]) - PreviousEnd(cash, fills, days, k))
  }

  /** The history of the days shown, up to but not including day k. */
  ghost predicate IsHistory(history: seq<Entry>, cash: real, fills: seq<Fill>, days: seq<int>, k: nat) {
    && First(days) <= k <= |days| && |history| == k - First(days)
    && forall j :: 0 <= j < |history| ==> history[j] == HistoryAt(cash, fills, days, First(days) + j)
  }

  /** The end of every day from day `first` up to but not including day k. */
  ghost predicate IsSnapshots(snapshots: seq<Entry>, cash: real, fills: seq<Fill>, days: seq<int>, first: nat, k: nat) {
    && first <= k <= |days| && |snapshots| == k - first
    && forall j :: 0 <= j < |snapshots| ==>
         snapshots[j] == Entry(days[first + j], DayEnd(cash, fills, days[first + j]))
  }

  ghost predicate Reports(r: Summary, cash: real, fills: seq<Fill>, today: int) {
    var days := DaysOf(fills);
    && r.currentEquity == Current(cash, fills)
    && r.dayStartEquity == StartOfDay(cash, fills, today)
    && r.dailyPnl == r.currentEquity - r.dayStartEquity
    && r.dailyPct == Percent(r.dailyPnl, r.dayStartEquity)
    && IsSnapshots(r.snapshots, cash, fills, days, First(days), |days|)
    && IsHistory(r.history, cash, fills, days, |days|)
  }

  // ----- the endpoint -----

  function DayFills(byDay: map<int, seq<Fill>>, d: int): seq<Fill> { if d in byDay then byDay[d] else [] }

  ghost predicate Grouped(byDay: map<int, seq<Fill>>, fills: seq<Fill>) {
    && (forall d :: d in byDay <==> d in DaysOf(fills))
    && forall d :: Filter(fills, On(d)) == DayFills(byDay, d)
  }

  lemma {:induction false} GroupNext(byDay: map<int, seq<Fill>>, fills: seq<Fill>, f: Fill)
    requires Grouped(byDay, fills)
    ensures Grouped(byDay[FillDay(f) := DayFills(byDay, FillDay(f)) + [f]], fills + [f])
    ensures DaysOf(fills + [f]) == if FillDay(f) in byDay then DaysOf(fills) else DaysOf(fills) + [FillDay(f)]
  {
    var d, more := FillDay(f), fills + [f];
    assert more[..|fills|] == fills;
    forall e ensures Filter(more, On(e)) == DayFills(byDay[d := DayFills(byDay, d) + [f]], e) {
      FilterSnoc(fills, f, On(e));
    }
  }

  method GroupByDay(fills: seq<Fill>) returns (days: seq<int>, byDay: map<int, seq<Fill>>)
    ensures days == DaysOf(fills) && Grouped(byDay, fills)
  {
    days, byDay := [], map[];
    var i := 0;
    while i < |fills|
      invariant 0 <= i <= |fills|
      invariant days == DaysOf(fills[..i]) && Grouped(byDay, fills[..i])
    {
      GroupNext(byDay, fills[..i], fills[i]);
      assert fills[..i + 1] == fills[..i] + [fills[i]];
      var d := FillDay(fills[i]);
      if d !in byDay { days := days + [d]; }
      byDay := byDay[d := DayFills(byDay, d) + [fills[i]]];
      i := i + 1;
    }
    assert fills[..i] == fills;
  }

  lemma AddedLot(l: Lot, f: Fill, qty: real, avg: real)
    requires qty == l.qty + f.qty != 0.0 && avg == (l.basis + Gross(f)) / qty
    ensures Added(l, f) == Lot(qty, avg, avg * qty)
  {}

  /** One fill in either of the two loops. */
  method CountFill(cash: real, lots: map<string, Lot>, fill: Fill)
    returns (cash': real, lots': map<string, Lot>, raised: bool)
    ensures Tally(cash', lots', raised) == AnalyticsStep(Tally(cash, lots, false), fill)
  {
    cash', lots', raised := cash, lots, false;
    var gross := fill.price * fill.qty;
    assert gross == Gross(fill);
    if fill.side == BUY {
      cash' := cash' - (gross + fill.fee);
      if fill.symbol in lots' {
        var newQty := lots'[fill.symbol].qty + fill.qty;
        if newQty == 0.0 { raised := true; return; }
        var avg := (lots'[fill.symbol].basis + gross) / newQty;
        AddedLot(lots'[fill.symbol], fill, newQty, avg);
        lots' := lots'[fill.symbol := Lot(newQty, avg, avg * newQty)];
      } else {
        lots' := lots'[fill.symbol := Lot(fill.qty, fill.price, gross)];
      }
    } else {
      cash' := cash' + (gross - fill.fee);
      if fill.symbol in lots' {
        var newQty := lots'[fill.symbol].qty - fill.qty;
        if newQty <= 0.0 {
          lots' := lots' - {fill.symbol};
        } else {
          lots' := lots'[fill.symbol := lots'[fill.symbol].(qty := newQty)];
        }
      }
    }
  }

  /** Once a fill has raised, the later ones are not read. */
  lemma {:induction false} RaisedStays(cash: real, fills: seq<Fill>, n: nat)
    requires n <= |fills| && AnalyticsFold(cash, fills[..n]).raised
    ensures AnalyticsFold(cash, fills) == AnalyticsFold(cash, fills[..n])
  {
    if n == |fills| {
      assert fills[..n] == fills;
    } else {
      var front := fills[..|fills| - 1];
      assert front[..n] == fills[..n];
      RaisedStays(cash, front, n);
    }
  }

  lemma DayNext(initial: real, earlier: seq<Fill>, day: seq<Fill>, i: nat)
    requires i < |day|
    ensures var t := AnalyticsStep(AnalyticsFold(initial, earlier + day[..i]), day[i]);
            AnalyticsFold(initial, earlier + day[..i + 1]) == t
            && (t.raised ==> AnalyticsFold(initial, earlier + day) == t)
  {
    AnalyticsSnoc(initial, earlier + day[..i], day[i]);
    assert earlier + day[..i + 1] == earlier + day[..i] + [day[i]];
    assert (earlier + day)[..|earlier| + i + 1] == earlier + day[..i + 1];
    if AnalyticsFold(initial, earlier + day[..i + 1]).raised { RaisedStays(initial, earlier + day, |earlier| + i + 1); }
  }

  method CountDay(cash: real, lots: map<string, Lot>, day: seq<Fill>, ghost initial: real, ghost earlier: seq<Fill>)
    returns (cash': real, lots': map<string, Lot>, raised: bool)
    requires Tally(cash, lots, false) == AnalyticsFold(initial, earlier)
    ensures Tally(cash', lots', raised) == AnalyticsFold(initial, earlier + day)
  {
    cash', lots', raised := cash, lots, false;
    var i := 0;
    assert earlier + day[..0] == earlier;
    while i < |day|
      invariant 0 <= i <= |day|
      invariant !raised && Tally(cash', lots', raised) == AnalyticsFold(initial, earlier + day[..i])
    {
      DayNext(initial, earlier, day, i);
      cash', lots', raised := CountFill(cash', lots', day[i]);
      if raised { return; }
      i := i + 1;
    }
    assert day[..i] == day;
  }

  method EquityNow(cash: real, lots: map<string, Lot>) returns (equity: real)
    ensures equity == TallyEquity(Tally(cash, lots, false))
  {
    var value := SumValues(LotValues(lots));
    equity := cash + value;
  }

  /** The fills of the first k days. */
  function Done(fills: seq<Fill>, days: seq<int>, k: nat): seq<Fill>
    requires k <= |days|
  {
    if k == 0 then [] else Filter(fills, UpTo(days[k - 1]))
  }

  lemma DoneNext(fills: seq<Fill>, days: seq<int>, k: nat)
    requires Ordered(fills, FillDay) && days == DaysOf(fills) && k < |days|
    ensures Done(fills, days, k) + Filter(fills, On(days[k])) == Done(fills, days, k + 1)
  {
    BeforeNextDay(fills, k);
    DaySplit(fills, days[k]);
  }

  lemma RaisedSoFar(initial: real, fills: seq<Fill>, days: seq<int>, k: nat)
    requires Ordered(fills, FillDay) && 0 < k <= |days| && AnalyticsFold(initial, Done(fills, days, k)).raised
    ensures AnalyticsFold(initial, fills).raised
  {
    var n := FilterOrderedPrefix(fills, FillDay, days[k - 1], UpTo(days[k - 1]));
    RaisedStays(initial, fills, n);
  }

  method RunDay(cash: real, lots: map<string, Lot>, day: seq<Fill>, ghost initial: real, ghost fills: seq<Fill>,
                ghost days: seq<int>, ghost k: nat)
    returns (cash': real, lots': map<string, Lot>, raised: bool, equity: real)
    requires Ordered(fills, FillDay) && days == DaysOf(fills) && k < |days|
    requires Tally(cash, lots, false) == AnalyticsFold(initial, Done(fills, days, k))
    requires day == Filter(fills, On(days[k]))
    ensures Tally(cash', lots', raised) == AnalyticsFold(initial, Done(fills, days, k + 1))
    ensures !raised ==> equity == DayEnd(initial, fills, days[k])
  {
    DoneNext(fills, days, k);
    cash', lots', raised := CountDay(cash, lots, day, initial, Done(fills, days, k));
    equity := 0.0;
    if !raised { equity := EquityNow(cash', lots'); }
  }

  /** Equity at the end of each day, in one pass over the days. */
  method RunDays(initial: real, fills: seq<Fill>, days: seq<int>, byDay: map<int, seq<Fill>>)
    returns (snapshots: seq<Entry>, current: real, raised: bool)
    requires Ordered(fills, FillDay) && |fills| != 0
    requires days == DaysOf(fills) && Grouped(byDay, fills)
    ensures raised <==> AnalyticsFold(initial, fills).raised
    ensures !raised ==> IsSnapshots(snapshots, initial, fills, days, 0, |days|) && current == Current(initial, fills)
  {
    var cash, lots := initial, map[];
    snapshots, current, raised := [], 0.0, false;
    var k := 0;
    while k < |days|
      invariant 0 <= k <= |days| && !raised
      invariant Tally(cash, lots, false) == AnalyticsFold(initial, Done(fills, days, k))
      invariant IsSnapshots(snapshots, initial, fills, days, 0, k)
    {
      var equity: real;
      cash, lots, raised, equity := RunDay(cash, lots, DayFills(byDay, days[k]), initial, fills, days, k);
      if raised {
        RaisedSoFar(initial, fills, days, k + 1);
        return;
      }
      snapshots := snapshots + [Entry(days[k], equity)];
      k := k + 1;
    }
    ThroughLastDay(fills);
    current := EquityNow(cash, lots);
  }

  lemma EarlierFine(initial: real, fills: seq<Fill>, today: int, i: nat)
    requires Ordered(fills, FillDay) && !AnalyticsFold(initial, fills).raised && i <= |fills|
    ensures !AnalyticsFold(initial, Filter(fills[..i], Before(today))).raised
  {
    assert Ordered(fills[..i], FillDay);
    var n := FilterOrderedPrefix(fills[..i], FillDay, today - 1, Before(today));
    assert fills[..i][..n] == fills[..n];
    if AnalyticsFold(initial, fills[..n]).raised { RaisedStays(initial, fills, n); }
  }

  lemma EarlierNext(initial: real, fills: seq<Fill>, today: int, i: nat)
    requires Ordered(fills, FillDay) && !AnalyticsFold(initial, fills).raised && i < |fills|
    ensures var before := AnalyticsFold(initial, Filter(fills[..i], Before(today)));
            var after := AnalyticsFold(initial, Filter(fills[..i + 1], Before(today)));
            !after.raised && after == if FillDay(fills[i]) < today then AnalyticsStep(before, fills[i]) else before
  {
    EarlierFine(initial, fills, today, i + 1);
    FilterSnoc(fills[..i], fills[i], Before(today));
    assert fills[..i + 1] == fills[..i] + [fills[i]];
    AnalyticsSnoc(initial, Filter(fills[..i], Before(today)), fills[i]);
  }

  /** Called after the pass over all days, so no fill raises here. */
  method FindDayStart(initial: real, fills: seq<Fill>, today: int, byDay: map<int, seq<Fill>>) returns (equity: real)
    requires Ordered(fills, FillDay) && !AnalyticsFold(initial, fills).raised
    requires Grouped(byDay, fills)
    ensures equity == StartOfDay(initial, fills, today)
  {
    if today !in byDay { return initial; }
    var cash, lots, raised := initial, map[], false;
    var i := 0;
    while i < |fills|
      invariant 0 <= i <= |fills| && !raised
      invariant Tally(cash, lots, false) == AnalyticsFold(initial, Filter(fills[..i], Before(today)))
    {
      EarlierNext(initial, fills, today, i);
      if FillDay(fills[i]) < today { cash, lots, raised := CountFill(cash, lots, fills[i]); }
      i := i + 1;
    }
    assert fills[..i] == fills;
    equity := EquityNow(cash, lots);
  }

  /** The snapshot of a day, looked up by its date. */
  method FindSnapshot(snapshots: seq<Entry>, day: int) returns (equity: Option<real>)
    ensures equity == None <==> forall k :: 0 <= k < |snapshots| ==> snapshots[k].day != day
    ensures equity != None ==> exists k :: 0 <= k < |snapshots| && snapshots[k] == Entry(day, equity.value)
  {
    for k := 0 to |snapshots|
      invariant forall j :: 0 <= j < k ==> snapshots[j].day != day
    {
      if snapshots[k].day == day { return Some(snapshots[k].amount); }
    }
    return None;
  }

  /** Days are distinct, so the lookup finds the snapshot of that day. */
  lemma {:induction false} SnapshotFound(snapshots: seq<Entry>, cash: real, fills: seq<Fill>, days: seq<int>, k: nat,
                                         found: Option<real>)
    requires IsSnapshots(snapshots, cash, fills, days, 0, |days|) && Increasing(days) && k < |days|
    requires found == None <==> forall n :: 0 <= n < |snapshots| ==> snapshots[n].day != days[k]
    requires found != None ==> exists n :: 0 <= n < |snapshots| && snapshots[n] == Entry(days[k], found.value)
    ensures found == Some(DayEnd(cash, fills, days[k]))
  {
    assert snapshots[k].day == days[0 + k];
    var n :| 0 <= n < |snapshots| && snapshots[n] == Entry(days[k], found.value);
    assert snapshots[n].day == days[0 + n];
  }

  lemma {:induction false} HistoryNext(history: seq<Entry>, cash: real, fills: seq<Fill>, days: seq<int>, k: nat)
    requires IsHistory(history, cash, fills, days, k) && k < |days|
    ensures IsHistory(history + [HistoryAt(cash, fills, days, k)], cash, fills, days, k + 1)
    ensures PreviousEnd(cash, fills, days, k + 1) == DayEnd(cash, fills, days[k])
  {}

  method DailyHistory(initial: real, ghost fills: seq<Fill>, days: seq<int>, snapshots: seq<Entry>)
    returns (history: seq<Entry>)
    requires Increasing(days) && IsSnapshots(snapshots, initial, fills, days, 0, |days|)
    ensures IsHistory(history, initial, fills, days, |days|)
  {
    history := [];
    var prevEquity := initial;
    for k := First(days) to |days|
      invariant IsHistory(history, initial, fills, days, k)
      invariant prevEquity == PreviousEnd(initial, fills, days, k)
    {
      var found := FindSnapshot(snapshots, days[k]);
      SnapshotFound(snapshots, initial, fills, days, k, found);
      HistoryNext(history, initial, fills, days, k);
      if found != None {
        history := history + [Entry(days[k], found.value - prevEquity)];
        prevEquity := found.value;
      }
    }
  }

  lemma WindowShown(snapshots: seq<Entry>, cash: real, fills: seq<Fill>, days: seq<int>)
    requires IsSnapshots(snapshots, cash, fills, days, 0, |days|)
    ensures IsSnapshots(snapshots[First(days)..], cash, fills, days, First(days), |days|)
  {
    var shown := snapshots[First(days)..];
    forall j | 0 <= j < |shown|
      ensures shown[j] == Entry(days[First(days) + j], DayEnd(cash, fills, days[First(days) + j]))
    {
      assert shown[j] == snapshots[First(days) + j];
    }
  }

  /** It raises exactly on a non-empty log with negative initial cash or with a BUY that meets a lot of the
      opposite quantity, and otherwise reports. */
  method ReadAnalyticsSummary(initial: real, fills: seq<Fill>, today: int) returns (r: Result<Summary, SummaryError>)
    requires Ordered(fills, FilledAt)
    ensures fills == [] ==> r == Ok(Summary(initial, initial, 0.0, 0.0, [], []))
    ensures fills != [] && initial < 0.0 ==> r == Err(NegativeInitialCash)
    ensures fills != [] && initial >= 0.0 && AnalyticsFold(initial, fills).raised ==> r == Err(ZeroLot)
    ensures fills != [] && initial >= 0.0 && !AnalyticsFold(initial, fills).raised
            ==> r.Ok? && Reports(r.value, initial, fills, today)
  {
    if fills == [] { return Ok(Summary(initial, initial, 0.0, 0.0, [], [])); }
    if initial < 0.0 { return Err(NegativeInitialCash); }
    DayOrdered(fills);
    DaysIncreasing(fills);
    var keys, byDay := GroupByDay(fills);
    SortedDays(keys);
    var days := Sort(keys, Identity);
    var snapshots, current, raised := RunDays(initial, fills, days, byDay);
    if raised { return Err(ZeroLot); }
    var dayStart := FindDayStart(initial, fills, today, byDay);
    var dailyPnl := current - dayStart;
    var history := DailyHistory(initial, fills, days, snapshots);
    WindowShown(snapshots, initial, fills, days);
    return Ok(Summary(current, dayStart, dailyPnl, Percent(dailyPnl, dayStart), snapshots[First(days)..], history));
  }

  // ----- what the report means -----

  function Total(entries: seq<Entry>): real {
    if |entries| == 0 then 0.0 else Total(entries[..|entries| - 1]) + entries[|entries| - 1].amount
  }

  lemma {:induction false} HistoryTotal(history: seq<Entry>, cash: real, fills: seq<Fill>, days: seq<int>, k: nat)
    requires IsHistory(history, cash, fills, days, k)
    ensures Total(history) == PreviousEnd(cash, fills, days, k) - cash
  {
    if |history| != 0 {
      var front := history[..|history| - 1];
      HistoryTotal(front, cash, fills, days, k - 1);
      assert history[|history| - 1] == HistoryAt(cash, fills, days, k - 1);
    }
  }

  lemma LastDayEnd(cash: real, fills: seq<Fill>, days: seq<int>)
    requires Ordered(fills, FillDay) && fills != [] && days == DaysOf(fills)
    ensures |days| != 0 && PreviousEnd(cash, fills, days, |days|) == Current(cash, fills)
  {
    ThroughLastDay(fills);
  }

  /** On every log the displayed daily profits add up to current equity less initial cash, however many
      days are cut off. */
  lemma HistoryTelescopes(r: Summary, cash: real, fills: seq<Fill>, today: int)
    requires Ordered(fills, FilledAt) && fills != []
    requires Reports(r, cash, fills, today)
    ensures Total(r.history) == r.currentEquity - cash
  {
    DayOrdered(fills);
    LastDayEnd(cash, fills, DaysOf(fills));
    HistoryTotal(r.history, cash, fills, DaysOf(fills), |DaysOf(fills)|);
  }

  lemma EquityBefore(cash: real, fills: seq<Fill>, k: nat)
    requires Ordered(fills, FillDay) && k < |DaysOf(fills)|
    ensures EquityWhere(cash, fills, Before(DaysOf(fills)[k]))
         == if k == 0 then cash else DayEnd(cash, fills, DaysOf(fills)[k - 1])
  {
    BeforeNextDay(fills, k);
  }

  lemma PreviousOfLast(cash: real, fills: seq<Fill>, days: seq<int>, k: nat)
    requires k + 1 == |days|
    ensures First(days) <= k
    ensures PreviousEnd(cash, fills, days, k) == if k == 0 then cash else DayEnd(cash, fills, days[k - 1])
  {}

  lemma LastDayOf(fills: seq<Fill>)
    requires Ordered(fills, FillDay) && fills != []
    ensures var days := DaysOf(fills); |days| != 0 && days[|days| - 1] == FillDay(fills[|fills| - 1])
  {
    DaysIncreasing(fills);
  }

  /** A day of the log starts where the day before it ended. */
  lemma StartOfKnownDay(cash: real, fills: seq<Fill>, days: seq<int>, k: nat)
    requires Ordered(fills, FillDay) && days == DaysOf(fills) && k < |days|
    ensures StartOfDay(cash, fills, days[k]) == if k == 0 then cash else DayEnd(cash, fills, days[k - 1])
  {
    EquityBefore(cash, fills, k);
  }

  /** The day of the last fill starts where the day before it in the history ended. */
  lemma StartOfLastDay(cash: real, fills: seq<Fill>, days: seq<int>, k: nat)
    requires Ordered(fills, FillDay) && fills != [] && days == DaysOf(fills) && k + 1 == |days|
    ensures First(days) <= k && StartOfDay(cash, fills, days[k]) == PreviousEnd(cash, fills, days, k)
  {
    StartOfKnownDay(cash, fills, days, k);
    PreviousOfLast(cash, fills, days, k);
  }

  lemma LastOfHistory(history: seq<Entry>, cash: real, fills: seq<Fill>, days: seq<int>)
    requires |days| != 0 && IsHistory(history, cash, fills, days, |days|)
    ensures history != [] && history[|history| - 1] == HistoryAt(cash, fills, days, |days| - 1)
  {
    assert history[|history| - 1] == HistoryAt(cash, fills, days, First(days) + (|history| - 1));
  }

  /** On a day with fills, the daily profit is the last entry of the history. */
  lemma TodayIsLastEntry(r: Summary, cash: real, fills: seq<Fill>, today: int)
    requires Ordered(fills, FilledAt) && fills != []
    requires Reports(r, cash, fills, today) && FillDay(fills[|fills| - 1]) == today
    ensures r.history != [] && r.history[|r.history| - 1] == Entry(today, r.dailyPnl)
  {
    var days := DaysOf(fills);
    DayOrdered(fills);
    LastDayOf(fills);
    StartOfLastDay(cash, fills, days, |days| - 1);
    LastDayEnd(cash, fills, days);
    LastOfHistory(r.history, cash, fills, days);
  }

  /** On a day without fills the daily profit is everything since the start, not zero. */
  lemma QuietDayShowsEverything(r: Summary, cash: real, fills: seq<Fill>, today: int)
    requires Ordered(fills, FilledAt) && fills != []
    requires Reports(r, cash, fills, today) && FillDay(fills[|fills| - 1]) < today
    ensures r.dailyPnl == Total(r.history)
  {
    DayOrdered(fills);
    DaysIncreasing(fills);
    forall n | 0 <= n < |fills| ensures FillDay(fills[n]) < today { LastIsLargest(fills, fills[n], FillDay); }
    HistoryTelescopes(r, cash, fills, today);
  }

  // ----- the report in its own numbers -----

  /** The last thirty days with fills are shown, as many in the snapshots as in the history. */
  lemma ThirtyDays(r: Summary, cash: real, fills: seq<Fill>, today: int)
    requires Reports(r, cash, fills, today)
    ensures var n := |DaysOf(fills)|;
            && |r.snapshots| == |r.history| == (if n <= 30 then n else 30)
            && forall j :: 0 <= j < |r.history| ==>
                 r.snapshots[j].day == r.history[j].day == DaysOf(fills)[n - |r.history| + j]
  {
    var first := First(DaysOf(fills));
    assert forall j :: 0 <= j < |r.history| ==> r.history[j] == HistoryAt(cash, fills, DaysOf(fills), first + j);
  }

  /** Each profit shown is the difference of two snapshots shown; the first is measured from the initial cash. */
  lemma ShownDifferences(r: Summary, cash: real, fills: seq<Fill>, today: int)
    requires Reports(r, cash, fills, today)
    ensures |r.snapshots| == |r.history|
    ensures forall j :: 0 <= j < |r.history| ==>
              r.history[j].amount == r.snapshots[j].amount - if j == 0 then cash else r.snapshots[j - 1].amount
  {
    var days, first := DaysOf(fills), First(DaysOf(fills));
    forall j | 0 <= j < |r.history|
      ensures r.history[j].amount == r.snapshots[j].amount - if j == 0 then cash else r.snapshots[j - 1].amount
    {
      assert r.history[j] == HistoryAt(cash, fills, days, first + j);
    }
  }

  lemma UpToSplit(fills: seq<Fill>, k: nat, d: int)
    requires k <= |fills| && (forall n :: 0 <= n < k ==> FillDay(fills[n]) <= d)
    requires forall n :: k <= n < |fills| ==> FillDay(fills[n]) > d
    ensures Filter(fills, UpTo(d)) == fills[..k]
  {
    var first, rest := fills[..k], fills[k..];
    forall n | 0 <= n < |rest| ensures !UpTo(d)(rest[n]) { assert rest[n] == fills[k + n]; }
    FilterAll(first, UpTo(d));
    FilterNone(rest, UpTo(d));
    FilterAppend(first, rest, UpTo(d));
    assert fills == first + rest && first + [] == first;
  }

  /** The snapshot of a day is the current equity of the log cut off after the day's last fill. */
  lemma SnapshotIs(r: Summary, cash: real, fills: seq<Fill>, today: int, j: nat, k: nat)
    requires Reports(r, cash, fills, today) && j < |r.snapshots| && k <= |fills|
    requires forall n :: 0 <= n < k ==> FillDay(fills[n]) <= r.snapshots[j].day
    requires forall n :: k <= n < |fills| ==> FillDay(fills[n]) > r.snapshots[j].day
    ensures r.snapshots[j].amount == Current(cash, fills[..k])
  {
    UpToSplit(fills, k, r.snapshots[j].day);
  }

  /** The day's profit in percent of what the day started with, and zero if that is not positive. */
  lemma DailyPercent(r: Summary, cash: real, fills: seq<Fill>, today: int)
    requires Reports(r, cash, fills, today)
    ensures r.dailyPnl == r.currentEquity - r.dayStartEquity
    ensures if r.dayStartEquity > 0.0 then r.dailyPct * r.dayStartEquity == 100.0 * r.dailyPnl else r.dailyPct == 0.0
  {
    var pnl, start := r.dailyPnl, r.dayStartEquity;
    if start > 0.0 { PercentTimes(pnl, start); }
  }

  lemma PercentTimes(pnl: real, start: real)
    requires start > 0.0
    ensures Percent(pnl, start) * start == 100.0 * pnl
  {
    DivMul(pnl, start);
    assert pnl / start * 100.0 * start == 100.0 * (pnl / start * start);
  }

  lemma LotsBut(lots: map<string, Lot>, s: string)
    ensures LotValues(lots - {s}) == LotValues(lots) - {s}
  {
    var a, b := LotValues(lots - {s}), LotValues(lots) - {s};
    assert a.Keys == b.Keys;
    assert forall x :: x in a ==> a[x] == b[x];
  }

  /** Analytics equity is the cash and every open lot at its average price; no market price enters. */
  lemma EachLotCounts(t: Tally, s: string)
    ensures t.lots == map[] ==> TallyEquity(t) == t.cash
    ensures s in t.lots ==> TallyEquity(t) == TallyEquity(t.(lots := t.lots - {s})) + t.lots[s].qty * t.lots[s].avg
  {
    LotsBut(t.lots, s);
    if s in t.lots { SumRemove(LotValues(t.lots), s); }
    if t.lots == map[] { assert LotValues(t.lots) == map[]; }
  }
}
