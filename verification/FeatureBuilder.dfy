/** trading/features/builder.py: the features of a candle list depend on the candles, not on their order, and
    never on later candles. */
module FeatureBuilder {
  import opened Prelude
  import opened StableSort
  import opened Indicators

  datatype Candle = Candle(symbol: string, timeframe: string, openTime: int, high: real, low: real, close: real,
                           volume: real)

  datatype Trend = Up | Down | Neutral | Unknown

  datatype Features = Features(symbol: string, timeframe: string, candleTime: int, close: real,
                               emaFast: Option<real>, emaSlow: Option<real>, ema200: Option<real>,
                               rsi14: Option<real>, atr14: Option<real>, volumeRatio: Option<real>, trend: Trend)

  const FAST := 12
  const SLOW := 26
  const LONG := 200
  const PERIOD := 14
  const VOLUME_WINDOW := 20

  function OpenTime(c: Candle): int { c.openTime }

  function Closes(cs: seq<Candle>): seq<real> { seq(|cs|, i requires 0 <= i < |cs| => cs[i].close) }

  function Highs(cs: seq<Candle>): seq<real> { seq(|cs|, i requires 0 <= i < |cs| => cs[i].high) }

  function Lows(cs: seq<Candle>): seq<real> { seq(|cs|, i requires 0 <= i < |cs| => cs[i].low) }

  function Volumes(cs: seq<Candle>): seq<real> { seq(|cs|, i requires 0 <= i < |cs| => cs[i].volume) }

  function VolumeRatio(cs: seq<Candle>, index: nat): Option<real>
    requires index < |cs|
  {
    if index < VOLUME_WINDOW then None
    else
      var average := Total(Volumes(cs[index - VOLUME_WINDOW..index])) / 20.0;
      if average == 0.0 then None else Some(cs[index].volume / average)
  }

  function TrendState(close: real, fast: Option<real>, slow: Option<real>): Trend {
    if fast == None || slow == None then Unknown
    else if close > slow.value && fast.value > slow.value then Up
    else if close < slow.value && fast.value < slow.value then Down
    else Neutral
  }

  // ----- the features of one candle, from that candle and the ones before it -----

  function EmaOf(cs: seq<Candle>, period: int): Option<real>
    requires period >= 1
  {
    if |cs| < period then None else Some(Ema(Closes(cs), period))
  }

  function RsiOf(cs: seq<Candle>): Option<real> {
    if |cs| <= PERIOD then None else Some(Rsi(Closes(cs), PERIOD))
  }

  function AtrOf(cs: seq<Candle>): Option<real> {
    if |cs| < PERIOD then None else Some(Atr(Highs(cs), Lows(cs), Closes(cs), PERIOD))
  }

  function Latest(cs: seq<Candle>): Features
    requires |cs| != 0
  {
    var c := cs[|cs| - 1];
    Features(c.symbol, c.timeframe, c.openTime, c.close, EmaOf(cs, FAST), EmaOf(cs, SLOW), EmaOf(cs, LONG),
             RsiOf(cs), AtrOf(cs), VolumeRatio(cs, |cs| - 1), TrendState(c.close, EmaOf(cs, FAST), EmaOf(cs, SLOW)))
  }

  /** One row per candle of an ordered list, each from its past only. */
  function Rows(cs: seq<Candle>): seq<Features> {
    if |cs| == 0 then [] else Rows(cs[..|cs| - 1]) + [Latest(cs)]
  }

  function FeaturesOf(candles: seq<Candle>): seq<Features> { Rows(Sort(candles, OpenTime)) }

  // ----- what a row says -----

  /** Which average fills which column: the columns appear with these numbers of candles. */
  lemma ColumnsAppear(cs: seq<Candle>)
    requires |cs| != 0
    ensures var f, closes := Latest(cs), Closes(cs);
            && f.emaFast == (if |cs| < 12 then None else Some(Ema(closes, 12)))
            && f.emaSlow == (if |cs| < 26 then None else Some(Ema(closes, 26)))
            && f.ema200 == (if |cs| < 200 then None else Some(Ema(closes, 200)))
            && f.rsi14 == (if |cs| <= 14 then None else Some(Rsi(closes, 14)))
            && f.atr14 == (if |cs| < 14 then None else Some(Atr(Highs(cs), Lows(cs), closes, 14)))
            && (f.volumeRatio != None ==> |cs| > 20)
  {}

  /** The ratio times the average volume of the twenty candles before is the volume of the candle. */
  lemma VolumeRatioIs(cs: seq<Candle>)
    requires |cs| != 0
    ensures var last := |cs| - 1;
            && (|cs| <= 20 ==> Latest(cs).volumeRatio == None)
            && (|cs| > 20 ==>
                  var before := Total(Volumes(cs[last - 20..last]));
                  (Latest(cs).volumeRatio == None <==> before == 0.0)
                  && (before != 0.0 ==> Latest(cs).volumeRatio.value * before == 20.0 * cs[last].volume))
  {
    var last := |cs| - 1;
    if |cs| > 20 {
      var before := Total(Volumes(cs[last - 20..last]));
      if before != 0.0 { DivMul(cs[last].volume, before / 20.0); }
    }
  }

  /** Up means that the close is above the slow average and the fast average is too; Down, both below. */
  lemma TrendIs(cs: seq<Candle>)
    requires |cs| != 0
    ensures var f := Latest(cs);
            && (f.trend == Unknown <==> |cs| < 26)
            && (|cs| >= 26 ==>
                  var slow, fast := Ema(Closes(cs), 26), Ema(Closes(cs), 12);
                  && (f.trend == Up <==> f.close > slow && fast > slow)
                  && (f.trend == Down <==> f.close < slow && fast < slow))
  {}

  ghost predicate Steady(cs: seq<Candle>, v: real) { forall i :: 0 <= i < |cs| ==> cs[i].close == v }

  lemma SteadyEma(cs: seq<Candle>, v: real, period: int)
    requires Steady(cs, v) && 1 <= period <= |cs|
    ensures Ema(Closes(cs), period) == v
  {
    EmaWithin(v, Closes(cs), v, period);
  }

  lemma EmaAfterStep(cs: seq<Candle>, c: Candle, v: real, period: int)
    requires Steady(cs, v) && 1 <= period <= |cs|
    ensures (period + 1) as real * (Ema(Closes(cs + [c]), period) - v) == 2.0 * (c.close - v)
  {
    SteadyEma(cs, v, period);
    assert Closes(cs + [c])[..|cs|] == Closes(cs);
    EmaSteps(Closes(cs + [c]), period);
  }

  /** This much of the distance to the new value is covered. */
  predicate Pulled(before: real, after: real, parts: real, times: real, toward: real) {
    parts * (after - before) == times * (toward - before)
  }

  lemma NextEma(cs: seq<Candle>, c: Candle, period: int)
    requires 1 <= period <= |cs|
    ensures Pulled(Ema(Closes(cs), period), Ema(Closes(cs + [c]), period), (period + 1) as real, 2.0, c.close)
  {
    assert Closes(cs + [c]) == Closes(cs) + [c.close];
    EmaOfOneMore(Closes(cs), c.close, period);
  }

  /** The true ranges of the candles. */
  function RangesOf(cs: seq<Candle>): (ranges: seq<real>)
    ensures |ranges| == |cs|
  {
    TrueRanges(Highs(cs), Lows(cs), Closes(cs))
  }

  lemma NextRange(cs: seq<Candle>, c: Candle)
    requires |cs| != 0 && c.low <= c.high
    ensures RangesOf(cs + [c]) == RangesOf(cs) + [Max(c.high, cs[|cs| - 1].close) - Min(c.low, cs[|cs| - 1].close)]
  {
    var now, n := cs + [c], |cs|;
    assert Highs(now)[..n] == Highs(cs) && Lows(now)[..n] == Lows(cs) && Closes(now)[..n] == Closes(cs);
    TrueRangesAt(Highs(now), Lows(now), Closes(now), n);
    TrueRangeIs(c.high, c.low, Some(cs[n - 1].close));
  }

  lemma NextAtr(ranges: seq<real>, range: real, period: int)
    requires 1 <= period <= |ranges|
    ensures Pulled(Wilder(ranges, period), Wilder(ranges + [range], period), period as real, 1.0, range)
  {
    WilderOfOneMore(ranges, range, period);
  }

  /** The same of two columns that show averages. */
  predicate Moves(before: Option<real>, after: Option<real>, parts: real, times: real, toward: real) {
    before.Some? && after.Some? && Pulled(before.value, after.value, parts, times, toward)
  }

  /** What one more candle does to the averages that are there: its close pulls the EMAs by 2/13, 2/27 and 2/201 of
      the distance, its range from the close before pulls the ATR by 1/14. */
  lemma NextCandle(cs: seq<Candle>, c: Candle)
    requires |cs| != 0 && c.low <= c.high
    ensures var before, after, previous := Latest(cs), Latest(cs + [c]), cs[|cs| - 1].close;
            && (|cs| >= 12 ==> Moves(before.emaFast, after.emaFast, 13.0, 2.0, c.close))
            && (|cs| >= 26 ==> Moves(before.emaSlow, after.emaSlow, 27.0, 2.0, c.close))
            && (|cs| >= 200 ==> Moves(before.ema200, after.ema200, 201.0, 2.0, c.close))
            && (|cs| >= 14 ==>
                  Moves(before.atr14, after.atr14, 14.0, 1.0, Max(c.high, previous) - Min(c.low, previous)))
  {
    if |cs| >= 12 { NextEma(cs, c, 12); }
    if |cs| >= 26 { NextEma(cs, c, 26); }
    if |cs| >= 200 { NextEma(cs, c, 200); }
    if |cs| >= 14 {
      NextRange(cs, c);
      NextAtr(RangesOf(cs), Max(c.high, cs[|cs| - 1].close) - Min(c.low, cs[|cs| - 1].close), 14);
    }
  }

  /** After at least 26 closes at one value, the next close alone decides: above it the trend is Up, below it
      Down, and at it Neutral. */
  lemma StepDecidesTrend(cs: seq<Candle>, c: Candle, v: real)
    requires |cs| >= 26 && Steady(cs, v)
    ensures Latest(cs + [c]).trend == if c.close > v then Up else if c.close < v then Down else Neutral
  {
    EmaAfterStep(cs, c, v, 12);
    EmaAfterStep(cs, c, v, 26);
    TrendIs(cs + [c]);
  }

  // ----- the builder -----

  lemma ColumnsTake(cs: seq<Candle>, n: nat)
    requires n <= |cs|
    ensures Closes(cs)[..n] == Closes(cs[..n]) && Highs(cs)[..n] == Highs(cs[..n]) && Lows(cs)[..n] == Lows(cs[..n])
  {}

  lemma VolumeAt(cs: seq<Candle>, n: nat)
    requires n < |cs|
    ensures VolumeRatio(cs, n) == VolumeRatio(cs[..n + 1], n)
  {
    if n >= VOLUME_WINDOW {
      assert cs[..n + 1][n - VOLUME_WINDOW..n] == cs[n - VOLUME_WINDOW..n];
    }
  }

  lemma EmaAt(s: Series, cs: seq<Candle>, period: int, n: nat)
    requires period >= 1 && IsEma(s, Closes(cs), period) && n < |cs|
    ensures s[n] == EmaOf(cs[..n + 1], period)
  {
    ColumnsTake(cs, n + 1);
  }

  lemma RsiAtCandle(s: Series, cs: seq<Candle>, n: nat)
    requires IsRsi(s, Closes(cs), PERIOD) && n < |cs|
    ensures s[n] == RsiOf(cs[..n + 1])
  {
    ColumnsTake(cs, n + 1);
  }

  lemma AtrAt(s: Series, cs: seq<Candle>, n: nat)
    requires IsAtr(s, Highs(cs), Lows(cs), Closes(cs), PERIOD) && n < |cs|
    ensures s[n] == AtrOf(cs[..n + 1])
  {
    ColumnsTake(cs, n + 1);
  }

  method BuildFeatures(candles: seq<Candle>) returns (features: seq<Features>)
    ensures features == FeaturesOf(candles)
  {
    var ordered := Sort(candles, OpenTime);
    var closes, highs, lows := Closes(ordered), Highs(ordered), Lows(ordered);
    var fast := EmaSeries(closes, FAST);
    var slow := EmaSeries(closes, SLOW);
    var long := EmaSeries(closes, LONG);
    var rsi := RsiSeries(closes, PERIOD);
    var atr := AtrSeries(highs, lows, closes, PERIOD);
    features := [];
    var n := 0;
    while n < |ordered|
      invariant 0 <= n <= |ordered| && features == Rows(ordered[..n])
    {
      var c := ordered[n];
      EmaAt(fast.value, ordered, FAST, n);
      EmaAt(slow.value, ordered, SLOW, n);
      EmaAt(long.value, ordered, LONG, n);
      RsiAtCandle(rsi.value, ordered, n);
      AtrAt(atr.value, ordered, n);
      VolumeAt(ordered, n);
      assert ordered[..n + 1][..n] == ordered[..n];
      var row := Features(c.symbol, c.timeframe, c.openTime, c.close, fast.value[n], slow.value[n], long.value[n],
                          rsi.value[n], atr.value[n], VolumeRatio(ordered, n),
                          TrendState(c.close, fast.value[n], slow.value[n]));
      assert row == Latest(ordered[..n + 1]);
      features := features + [row];
      n := n + 1;
    }
    assert ordered[..n] == ordered;
  }

  // ----- what the rows depend on -----

  lemma RowsNext(cs: seq<Candle>)
    requires |cs| != 0
    ensures Rows(cs) == Rows(cs[..|cs| - 1]) + [Latest(cs)] && Latest(cs).candleTime == cs[|cs| - 1].openTime
  {}

  ghost predicate Dated(rows: seq<Features>, cs: seq<Candle>) {
    |rows| == |cs| && forall i :: 0 <= i < |cs| ==> rows[i].candleTime == cs[i].openTime
  }

  lemma DatedNext(rows: seq<Features>, cs: seq<Candle>, row: Features)
    requires |cs| != 0 && Dated(rows, cs[..|cs| - 1]) && row.candleTime == cs[|cs| - 1].openTime
    ensures Dated(rows + [row], cs)
  {}

  lemma {:induction false} RowTimes(cs: seq<Candle>)
    ensures Dated(Rows(cs), cs)
  {
    if |cs| != 0 {
      RowTimes(cs[..|cs| - 1]);
      RowsNext(cs);
      DatedNext(Rows(cs[..|cs| - 1]), cs, Latest(cs));
    }
  }

  lemma TakeLess<T>(all: seq<T>, front: seq<T>, x: T, n: nat, taken: seq<T>)
    requires n <= |front| && all == front + [x] && front[..n] == taken
    ensures |all| == |front| + 1 && all[..n] == taken
  {}

  lemma FrontTake<T>(s: seq<T>, n: nat)
    requires n < |s|
    ensures s[..|s| - 1][..n] == s[..n]
  {}

  lemma {:induction false} RowsTake(cs: seq<Candle>, n: nat)
    requires n <= |cs|
    ensures |Rows(cs)| == |cs| && Rows(cs)[..n] == Rows(cs[..n])
  {
    if n == |cs| {
      RowTimes(cs);
      assert cs[..n] == cs;
    } else {
      var front := cs[..|cs| - 1];
      RowsTake(front, n);
      FrontTake(cs, n);
      RowsNext(cs);
      TakeLess(Rows(cs), Rows(front), Latest(cs), n, Rows(cs[..n]));
    }
  }

  /** The input order does not matter as long as candles of equal open time are equal. */
  lemma OrderIrrelevant(a: seq<Candle>, b: seq<Candle>)
    requires multiset(a) == multiset(b) && TiesEqual(a, OpenTime)
    ensures FeaturesOf(a) == FeaturesOf(b)
  {
    TiesHideOrder(a, b, OpenTime);
  }

  function Until(t: int): Candle -> bool { c => OpenTime(c) <= t }

  lemma RowsUntil(ordered: seq<Candle>, t: int) returns (n: nat)
    requires Ordered(ordered, OpenTime)
    ensures var all := Rows(ordered);
            n <= |all| && Rows(Filter(ordered, Until(t))) == all[..n]
            && forall i :: 0 <= i < |all| ==> (all[i].candleTime <= t <==> i < n)
  {
    n := FilterOrderedPrefix(ordered, OpenTime, t, Until(t));
    RowsTake(ordered, n);
    RowTimes(ordered);
  }

  /** No look-ahead: the rows up to time t are the rows of the candles up to time t alone, in any input order
      and with or without repeated times. */
  lemma NoLookAhead(candles: seq<Candle>, t: int) returns (n: nat)
    ensures var all := FeaturesOf(candles);
            n <= |all| && FeaturesOf(Filter(candles, Until(t))) == all[..n]
            && forall i :: 0 <= i < |all| ==> (all[i].candleTime <= t <==> i < n)
  {
    SortCorrect(candles, OpenTime);
    SortFilter(candles, OpenTime, Until(t));
    n := RowsUntil(Sort(candles, OpenTime), t);
  }

  /** With two candles of one open time the input order does show. */
  lemma TiesShowOrder(c: Candle, d: Candle)
    requires c.openTime == d.openTime && c.close != d.close
    ensures multiset([c, d]) == multiset([d, c]) && FeaturesOf([c, d]) != FeaturesOf([d, c])
  {
    PairStays(c, d);
    PairStays(d, c);
    RowsTake([c, d], 2);
    RowsTake([d, c], 2);
    assert Rows([c, d])[1] == Latest([c, d]) && Rows([d, c])[1] == Latest([d, c]);
  }

  lemma PairStays(c: Candle, d: Candle)
    requires c.openTime == d.openTime
    ensures Sort([c, d], OpenTime) == [c, d]
  {
    SortOrdered([c, d], OpenTime);
  }

  // ----- exactly when the rows show the input order -----

  /** What a row repeats of its candle. */
  function Shown(c: Candle): Candle { Candle(c.symbol, c.timeframe, c.openTime, 0.0, 0.0, c.close, 0.0) }

  function AllShown(cs: seq<Candle>): seq<Candle> {
    if |cs| == 0 then [] else AllShown(cs[..|cs| - 1]) + [Shown(cs[|cs| - 1])]
  }

  function SeenIn(rows: seq<Features>): seq<Candle> {
    if |rows| == 0 then []
    else
      var f := rows[|rows| - 1];
      SeenIn(rows[..|rows| - 1]) + [Candle(f.symbol, f.timeframe, f.candleTime, 0.0, 0.0, f.close, 0.0)]
  }

  lemma SeenSnoc(rows: seq<Features>, f: Features)
    ensures SeenIn(rows + [f]) == SeenIn(rows) + [Candle(f.symbol, f.timeframe, f.candleTime, 0.0, 0.0, f.close, 0.0)]
  {
    assert (rows + [f])[..|rows|] == rows;
  }

  lemma LatestShows(cs: seq<Candle>)
    requires |cs| != 0
    ensures var f, c := Latest(cs), cs[|cs| - 1];
            Shown(c) == Candle(f.symbol, f.timeframe, f.candleTime, 0.0, 0.0, f.close, 0.0)
  {}

  /** The rows determine the shown part of every candle. */
  lemma {:induction false} RowsShow(cs: seq<Candle>)
    ensures SeenIn(Rows(cs)) == AllShown(cs)
  {
    if |cs| != 0 {
      var front := cs[..|cs| - 1];
      RowsShow(front);
      RowsNext(cs);
      LatestShows(cs);
      SeenSnoc(Rows(front), Latest(cs));
    }
  }

  lemma ShownSnoc(cs: seq<Candle>, c: Candle)
    ensures AllShown(cs + [c]) == AllShown(cs) + [Shown(c)]
  {
    assert (cs + [c])[..|cs|] == cs;
  }

  lemma {:induction false} ShownAppend(a: seq<Candle>, b: seq<Candle>)
    ensures AllShown(a + b) == AllShown(a) + AllShown(b)
  {
    if |b| == 0 {
      assert a + b == a && AllShown(a) + [] == AllShown(a);
    } else {
      var front, last := b[..|b| - 1], b[|b| - 1];
      ShownAppend(a, front);
      assert a + b == a + front + [last];
      ShownSnoc(a + front, last);
      assert b == front + [last];
    }
  }

  lemma {:induction false} ShownLength(cs: seq<Candle>)
    ensures |AllShown(cs)| == |cs|
    ensures forall i :: 0 <= i < |cs| ==> AllShown(cs)[i] == Shown(cs[i])
  {
    if |cs| != 0 { ShownLength(cs[..|cs| - 1]); }
  }

  lemma InsertLargest(cs: seq<Candle>, c: Candle)
    requires |cs| == 0 || OpenTime(cs[|cs| - 1]) <= OpenTime(c)
    ensures Insert(cs, c, OpenTime) == cs + [c]
  {}

  lemma {:induction false} ShownInsert(cs: seq<Candle>, c: Candle)
    ensures AllShown(Insert(cs, c, OpenTime)) == Insert(AllShown(cs), Shown(c), OpenTime)
  {
    ShownLength(cs);
    if |cs| == 0 || OpenTime(cs[|cs| - 1]) <= OpenTime(c) {
      InsertLargest(cs, c);
      InsertLargest(AllShown(cs), Shown(c));
      ShownSnoc(cs, c);
    } else {
      var front, last := cs[..|cs| - 1], cs[|cs| - 1];
      ShownInsert(front, c);
      SplitLast(cs);
      InsertBefore(front, c, last, OpenTime);
      InsertBefore(AllShown(front), Shown(c), Shown(last), OpenTime);
      ShownSnoc(front, last);
      ShownSnoc(Insert(front, c, OpenTime), last);
    }
  }

  lemma {:induction false} ShownSort(cs: seq<Candle>)
    ensures AllShown(Sort(cs, OpenTime)) == Sort(AllShown(cs), OpenTime)
  {
    if |cs| != 0 {
      var front, last := cs[..|cs| - 1], cs[|cs| - 1];
      ShownSort(front);
      ShownInsert(Sort(front, OpenTime), last);
      SortSnoc(AllShown(front), Shown(last), OpenTime);
    }
  }

  /** No order of the input changes the rows. */
  ghost predicate RowsHideOrder(candles: seq<Candle>) {
    forall t :: multiset(t) == multiset(candles) ==> FeaturesOf(t) == FeaturesOf(candles)
  }

  /** Candles of one open time have the same symbol, timeframe and close. */
  ghost predicate TiesShowAlike(candles: seq<Candle>) {
    forall c, d :: c in candles && d in candles && c.openTime == d.openTime ==> Shown(c) == Shown(d)
  }

  lemma EqualRows(a: seq<Candle>, b: seq<Candle>)
    requires FeaturesOf(a) == FeaturesOf(b)
    ensures Sort(AllShown(a), OpenTime) == Sort(AllShown(b), OpenTime)
  {
    RowsShow(Sort(a, OpenTime));
    RowsShow(Sort(b, OpenTime));
    ShownSort(a);
    ShownSort(b);
  }

  lemma ShownPair(c: Candle, d: Candle, rest: seq<Candle>)
    ensures AllShown([c] + ([d] + rest)) == [Shown(c)] + ([Shown(d)] + AllShown(rest))
  {
    ShownAppend([c], [d] + rest);
    ShownAppend([d], rest);
    assert [c] == [] + [c] && [d] == [] + [d];
    ShownSnoc([], c);
    ShownSnoc([], d);
  }

  /** If no order shows, ties agree in everything a row repeats. */
  lemma HiddenTiesAlike(candles: seq<Candle>)
    requires RowsHideOrder(candles)
    ensures TiesShowAlike(candles)
  {
    forall c, d | c in candles && d in candles && c.openTime == d.openTime ensures Shown(c) == Shown(d) {
      if c != d {
        var rest := MoveToFront(candles, c, d);
        var a, b := [c] + ([d] + rest), [d] + ([c] + rest);
        assert FeaturesOf(a) == FeaturesOf(b);
        EqualRows(a, b);
        ShownPair(c, d, rest);
        ShownPair(d, c, rest);
        SwapShows(Shown(c), Shown(d), AllShown(rest), OpenTime);
      }
    }
  }

  lemma SplitAt(t: seq<Candle>, x: Candle) returns (a: seq<Candle>, b: seq<Candle>)
    requires x in t
    ensures t == a + ([x] + b) && multiset(t) == multiset(a + b) + multiset{x}
  {
    var n :| 0 <= n < |t| && t[n] == x;
    a, b := t[..n], t[n + 1..];
    assert t == a + ([x] + b);
  }

  lemma {:induction false} ShownContents(s: seq<Candle>, t: seq<Candle>)
    requires multiset(s) == multiset(t)
    ensures multiset(AllShown(s)) == multiset(AllShown(t))
    decreases |s|
  {
    assert |multiset(s)| == |multiset(t)|;
    if |s| != 0 {
      var front, x := s[..|s| - 1], s[|s| - 1];
      FrontContents(s);
      assert x in multiset(t);
      var a, b := SplitAt(t, x);
      ShownContents(front, a + b);
      ShownMoved(a, b, x);
    }
  }

  lemma ShownMoved(a: seq<Candle>, b: seq<Candle>, x: Candle)
    ensures multiset(AllShown(a + ([x] + b))) == multiset(AllShown(a + b)) + multiset{Shown(x)}
  {
    ShownAppend(a, [x] + b);
    ShownAppend([x], b);
    ShownAppend(a, b);
    assert [x] == [] + [x];
    ShownSnoc([], x);
    assert AllShown([x]) == [Shown(x)];
  }

  /** Fewer than fourteen candles have rows of what they show alone. */
  lemma {:induction false} FewRows(cs: seq<Candle>)
    requires |cs| < PERIOD
    ensures Rows(cs) == Rows(AllShown(cs))
  {
    ShownLength(cs);
    if |cs| != 0 {
      var front := cs[..|cs| - 1];
      FewRows(front);
      RowsNext(cs);
      RowsNext(AllShown(cs));
      FewLatest(cs);
      assert AllShown(cs)[..|cs| - 1] == AllShown(front);
    }
  }

  lemma FewLatest(cs: seq<Candle>)
    requires 0 < |cs| < PERIOD && |AllShown(cs)| == |cs|
    ensures Latest(AllShown(cs)) == Latest(cs)
  {
    ShownLength(cs);
    assert Closes(AllShown(cs)) == Closes(cs);
  }

  lemma AlikeTiesHide(candles: seq<Candle>, t: seq<Candle>)
    requires |candles| < PERIOD && TiesShowAlike(candles) && multiset(t) == multiset(candles)
    ensures FeaturesOf(t) == FeaturesOf(candles)
  {
    assert |multiset(t)| == |multiset(candles)|;
    ShownContents(t, candles);
    ShownLength(candles);
    TiesHideOrder(AllShown(candles), AllShown(t), OpenTime);
    ShownSort(t);
    ShownSort(candles);
    SortCorrect(t, OpenTime);
    SortCorrect(candles, OpenTime);
    FewRows(Sort(t, OpenTime));
    FewRows(Sort(candles, OpenTime));
  }

  /** On every list, an order that never shows means that candles of one open time agree in what a row repeats;
      on fewer than fourteen candles that is enough. */
  lemma RowsHideOrderIff(candles: seq<Candle>)
    ensures RowsHideOrder(candles) ==> TiesShowAlike(candles)
    ensures |candles| < PERIOD ==> (RowsHideOrder(candles) <==> TiesShowAlike(candles))
  {
    if RowsHideOrder(candles) { HiddenTiesAlike(candles); }
    if |candles| < PERIOD && TiesShowAlike(candles) {
      forall t | multiset(t) == multiset(candles) ensures FeaturesOf(t) == FeaturesOf(candles) {
        AlikeTiesHide(candles, t);
      }
    }
  }

  // ----- the market upside down -----

  /** Every price x becomes c - x. */
  function UpsideDown(c: real, k: Candle): Candle {
    k.(high := c - k.low, low := c - k.high, close := c - k.close)
  }

  function AllUpsideDown(c: real, cs: seq<Candle>): seq<Candle> {
    seq(|cs|, i requires 0 <= i < |cs| => UpsideDown(c, cs[i]))
  }

  function Opposite(t: Trend): Trend {
    match t
    case Up => Down
    case Down => Up
    case Neutral => Neutral
    case Unknown => Unknown
  }

  function Flip(c: real, x: Option<real>): Option<real> { if x == None then None else Some(c - x.value) }

  lemma ColumnsMirror(c: real, cs: seq<Candle>)
    ensures Closes(AllUpsideDown(c, cs)) == Mirrored(c, Closes(cs))
    ensures Highs(AllUpsideDown(c, cs)) == Mirrored(c, Lows(cs))
    ensures Lows(AllUpsideDown(c, cs)) == Mirrored(c, Highs(cs))
  {}

  lemma TrendMirrors(c: real, close: real, fast: Option<real>, slow: Option<real>)
    ensures TrendState(c - close, Flip(c, fast), Flip(c, slow)) == Opposite(TrendState(close, fast, slow))
  {}

  lemma EmaFlips(c: real, cs: seq<Candle>, period: int)
    requires period >= 1
    ensures EmaOf(AllUpsideDown(c, cs), period) == Flip(c, EmaOf(cs, period))
  {
    ColumnsMirror(c, cs);
    if |cs| >= period { EmaMirrors(c, Closes(cs), period); }
  }

  lemma AtrStays(c: real, cs: seq<Candle>)
    ensures AtrOf(AllUpsideDown(c, cs)) == AtrOf(cs)
  {
    ColumnsMirror(c, cs);
    TrueRangesMirror(c, Highs(cs), Lows(cs), Closes(cs));
  }

  lemma VolumeStays(c: real, cs: seq<Candle>)
    requires |cs| != 0
    ensures VolumeRatio(AllUpsideDown(c, cs), |cs| - 1) == VolumeRatio(cs, |cs| - 1)
  {
    var n := |cs| - 1;
    if n >= VOLUME_WINDOW {
      assert Volumes(AllUpsideDown(c, cs)[n - VOLUME_WINDOW..n]) == Volumes(cs[n - VOLUME_WINDOW..n]);
    }
  }

  /** Whether the closes moved at all, as far as the RSI remembers. */
  predicate Moved(cs: seq<Candle>) {
    |cs| > PERIOD
    && (Wilder(Gains(Closes(cs)), PERIOD) != 0.0 || Wilder(Losses(Closes(cs)), PERIOD) != 0.0)
  }

  lemma RsiFlips(c: real, cs: seq<Candle>)
    ensures |cs| > PERIOD ==> (RsiOf(AllUpsideDown(c, cs)) == Flip(100.0, RsiOf(cs)) <==> Moved(cs))
  {
    ColumnsMirror(c, cs);
    if |cs| > PERIOD { RsiMirrors(c, Closes(cs), PERIOD); }
  }

  /** No direction is favoured: in the market upside down every average is upside down, the trend is opposite,
      RSI is 100 less the old one exactly where prices moved, and range and volume features stay. */
  lemma FeaturesMirror(c: real, cs: seq<Candle>)
    requires |cs| != 0
    ensures var f, g := Latest(cs), Latest(AllUpsideDown(c, cs));
            && g.emaFast == Flip(c, f.emaFast) && g.emaSlow == Flip(c, f.emaSlow) && g.ema200 == Flip(c, f.ema200)
            && g.trend == Opposite(f.trend) && g.close == c - f.close
            && g.atr14 == f.atr14 && g.volumeRatio == f.volumeRatio && g.candleTime == f.candleTime
            && (|cs| > PERIOD ==> (g.rsi14 == Flip(100.0, f.rsi14) <==> Moved(cs)))
  {
    EmaFlips(c, cs, FAST);
    EmaFlips(c, cs, SLOW);
    EmaFlips(c, cs, LONG);
    TrendMirrors(c, cs[|cs| - 1].close, EmaOf(cs, FAST), EmaOf(cs, SLOW));
    AtrStays(c, cs);
    VolumeStays(c, cs);
    RsiFlips(c, cs);
  }

  lemma {:induction false} ConstantTotal(xs: seq<real>, v: real)
    requires forall i :: 0 <= i < |xs| ==> xs[i] == v
    ensures Total(xs) == v * |xs| as real
  {
    if |xs| != 0 {
      ConstantTotal(xs[..|xs| - 1], v);
      OneMoreTime(v, (|xs| - 1) as real, |xs| as real);
    }
  }

  /** Against a steady volume the ratio is the current volume over it: the current candle itself is not part
      of the average, and neither is anything older than twenty candles. */
  lemma SteadyVolume(cs: seq<Candle>, n: nat, v: real)
    requires VOLUME_WINDOW <= n < |cs| && v != 0.0
    requires forall i :: n - VOLUME_WINDOW <= i < n ==> cs[i].volume == v
    ensures VolumeRatio(cs, n) == Some(cs[n].volume / v)
  {
    var before := Volumes(cs[n - VOLUME_WINDOW..n]);
    ConstantTotal(before, v);
    assert Total(before) == v * 20.0;
  }
}
