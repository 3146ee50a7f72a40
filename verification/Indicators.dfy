/** trading/features/indicators.py: the three indicator loops, against definitions by recursion over what
    has been seen so far. */
module Indicators {
  import opened Prelude

  datatype ValueError = BadPeriod(period: int) | LengthMismatch

  type Series = seq<Option<real>>

  function Total(xs: seq<real>): real {
    if |xs| == 0 then 0.0 else Total(xs[..|xs| - 1]) + xs[|xs| - 1]
  }

  function Mean(xs: seq<real>): real
    requires |xs| != 0
  {
    Total(xs) / |xs| as real
  }

  // ----- the definitions: each reads the values up to now and nothing else -----

  function Multiplier(period: int): real
    requires period >= 1
  {
    2.0 / (period + 1) as real
  }

  function Toward(before: real, now: real, multiplier: real): real { (now - before) * multiplier + before }

  function Ema(xs: seq<real>, period: int): real
    requires 1 <= period <= |xs|
  {
    if |xs| == period then Mean(xs)
    else Toward(Ema(xs[..|xs| - 1], period), xs[|xs| - 1], Multiplier(period))
  }

  function Smooth(before: real, now: real, period: int): real
    requires period >= 1
  {
    (before * (period - 1) as real + now) / period as real
  }

  /** Wilder's smoothed average. */
  function Wilder(xs: seq<real>, period: int): real
    requires 1 <= period <= |xs|
  {
    if |xs| == period then Mean(xs)
    else Smooth(Wilder(xs[..|xs| - 1], period), xs[|xs| - 1], period)
  }

  function Gain(before: real, now: real): real { if now - before > 0.0 then now - before else 0.0 }

  function Loss(before: real, now: real): real { if now - before > 0.0 then 0.0 else -(now - before) }

  function Gains(xs: seq<real>): (r: seq<real>)
    ensures |r| == if |xs| == 0 then 0 else |xs| - 1
  {
    if |xs| <= 1 then [] else Gains(xs[..|xs| - 1]) + [Gain(xs[|xs| - 2], xs[|xs| - 1])]
  }

  function Losses(xs: seq<real>): (r: seq<real>)
    ensures |r| == if |xs| == 0 then 0 else |xs| - 1
  {
    if |xs| <= 1 then [] else Losses(xs[..|xs| - 1]) + [Loss(xs[|xs| - 2], xs[|xs| - 1])]
  }

  function Strength(gain: real, loss: real): real
    requires gain >= 0.0 && loss >= 0.0
  {
    if loss == 0.0 then 100.0
    else
      DivNonneg(gain, loss);
      100.0 - 100.0 / (1.0 + gain / loss)
  }

  lemma DivNonneg(a: real, b: real)
    requires a >= 0.0 && b > 0.0
    ensures a / b >= 0.0
  {
    if a > 0.0 { DivPos(a, b); }
  }

  function Rsi(xs: seq<real>, period: int): real
    requires 1 <= period < |xs|
  {
    AveragesNonneg(xs, period);
    Strength(Wilder(Gains(xs), period), Wilder(Losses(xs), period))
  }

  function TrueRange(high: real, low: real, previousClose: Option<real>): real {
    match previousClose
    case None => high - low
    case Some(c) => Max(high - low, Max(Abs(high - c), Abs(low - c)))
  }

  function TrueRanges(highs: seq<real>, lows: seq<real>, closes: seq<real>): (r: seq<real>)
    requires |highs| == |lows| == |closes|
    ensures |r| == |highs|
  {
    var n := |highs| - 1;
    if n < 0 then []
    else TrueRanges(highs[..n], lows[..n], closes[..n])
         + [TrueRange(highs[n], lows[n], if n > 0 then Some(closes[n - 1]) else None)]
  }

  function Atr(highs: seq<real>, lows: seq<real>, closes: seq<real>, period: int): real
    requires |highs| == |lows| == |closes| && 1 <= period <= |highs|
  {
    Wilder(TrueRanges(highs, lows, closes), period)
  }

  // ----- what one more value does -----

  /** The first EMA is the mean of the first values; every later value pulls it 2 / (period + 1) of the way. */
  lemma EmaSteps(xs: seq<real>, period: int)
    requires 1 <= period <= |xs|
    ensures |xs| == period ==> Ema(xs, period) * period as real == Total(xs)
    ensures |xs| > period ==>
              var before, now := Ema(xs[..|xs| - 1], period), xs[|xs| - 1];
              (period + 1) as real * (Ema(xs, period) - before) == 2.0 * (now - before)
  {
    if |xs| == period { DivMul(Total(xs), period as real); } else { EmaMoves(xs, period); }
  }

  lemma EmaMoves(xs: seq<real>, period: int)
    requires 1 <= period < |xs|
    ensures var before, now := Ema(xs[..|xs| - 1], period), xs[|xs| - 1];
            (period + 1) as real * (Ema(xs, period) - before) == 2.0 * (now - before)
  {
    PulledBy(Ema(xs[..|xs| - 1], period), xs[|xs| - 1], (period + 1) as real);
  }

  lemma EmaOfOneMore(xs: seq<real>, x: real, period: int)
    requires 1 <= period <= |xs|
    ensures (period + 1) as real * (Ema(xs + [x], period) - Ema(xs, period)) == 2.0 * (x - Ema(xs, period))
  {
    assert (xs + [x])[..|xs|] == xs;
    EmaMoves(xs + [x], period);
  }

  lemma PulledBy(before: real, now: real, n: real)
    requires n != 0.0
    ensures n * (Toward(before, now, 2.0 / n) - before) == 2.0 * (now - before)
  {
    DivMul(2.0, n);
    assert n * ((now - before) * (2.0 / n)) == (2.0 / n * n) * (now - before);
  }

  /** The first smoothed average is the mean of the first values; every later value weighs one part in `period`. */
  lemma WilderSteps(xs: seq<real>, period: int)
    requires 1 <= period <= |xs|
    ensures |xs| == period ==> Wilder(xs, period) * period as real == Total(xs)
    ensures |xs| > period ==>
              var before, now := Wilder(xs[..|xs| - 1], period), xs[|xs| - 1];
              period as real * (Wilder(xs, period) - before) == now - before
  {
    if |xs| == period {
      DivMul(Total(xs), period as real);
    } else {
      var before, now := Wilder(xs[..|xs| - 1], period), xs[|xs| - 1];
      DivMul(before * (period - 1) as real + now, period as real);
      assert (period - 1) as real == period as real - 1.0;
      assert before * (period as real - 1.0) == before * period as real - before;
    }
  }

  lemma WilderOfOneMore(xs: seq<real>, x: real, period: int)
    requires 1 <= period <= |xs|
    ensures period as real * (Wilder(xs + [x], period) - Wilder(xs, period)) == x - Wilder(xs, period)
  {
    assert (xs + [x])[..|xs|] == xs;
    WilderSteps(xs + [x], period);
  }

  /** The true range is the width of the candle stretched to the previous close. */
  lemma TrueRangeIs(high: real, low: real, previousClose: Option<real>)
    requires low <= high
    ensures TrueRange(high, low, previousClose)
         == if previousClose == None then high - low
            else Max(high, previousClose.value) - Min(low, previousClose.value)
  {}

  /** Candle i has the close before it; the first has none. */
  lemma {:induction false} TrueRangesAt(highs: seq<real>, lows: seq<real>, closes: seq<real>, i: nat)
    requires |highs| == |lows| == |closes| && i < |highs|
    ensures TrueRanges(highs, lows, closes)[i]
         == TrueRange(highs[i], lows[i], if i == 0 then None else Some(closes[i - 1]))
  {
    var n := |highs| - 1;
    if i < n { TrueRangesAt(highs[..n], lows[..n], closes[..n], i); }
  }

  lemma {:induction false} AllZero(xs: seq<real>, period: int)
    requires 1 <= period <= |xs| && forall i :: 0 <= i < |xs| ==> xs[i] == 0.0
    ensures Wilder(xs, period) == 0.0
  {
    WilderWithin(0.0, xs, 0.0, period);
  }

  lemma {:induction false} ChangesAt(xs: seq<real>, i: nat)
    requires i + 1 < |xs|
    ensures Gains(xs)[i] - Losses(xs)[i] == xs[i + 1] - xs[i]
    ensures Gains(xs)[i] >= 0.0 && Losses(xs)[i] >= 0.0 && (Gains(xs)[i] == 0.0 || Losses(xs)[i] == 0.0)
  {
    if i + 2 < |xs| { ChangesAt(xs[..|xs| - 1], i); }
  }

  ghost predicate NeverFalls(xs: seq<real>) { forall i :: 0 <= i < |xs| - 1 ==> xs[i] <= xs[i + 1] }

  ghost predicate NeverRises(xs: seq<real>) { forall i :: 0 <= i < |xs| - 1 ==> xs[i] >= xs[i + 1] }

  lemma NoLosses(xs: seq<real>)
    requires NeverFalls(xs)
    ensures forall i :: 0 <= i < |Losses(xs)| ==> Losses(xs)[i] == 0.0
  {
    forall i | 0 <= i < |Losses(xs)| ensures Losses(xs)[i] == 0.0 { ChangesAt(xs, i); }
  }

  lemma NoGains(xs: seq<real>)
    requires NeverRises(xs)
    ensures forall i :: 0 <= i < |Gains(xs)| ==> Gains(xs)[i] == 0.0
  {
    forall i | 0 <= i < |Gains(xs)| ensures Gains(xs)[i] == 0.0 { ChangesAt(xs, i); }
  }

  /** If no value falls, RSI is 100. */
  lemma RsiRising(xs: seq<real>, period: int)
    requires 1 <= period < |xs| && NeverFalls(xs)
    ensures Rsi(xs, period) == 100.0
  {
    NoLosses(xs);
    AveragesNonneg(xs, period);
    AllZero(Losses(xs), period);
  }

  /** If none rises, it is 0, or 100 when the smoothed losses are nothing. */
  lemma RsiFalling(xs: seq<real>, period: int)
    requires 1 <= period < |xs| && NeverRises(xs)
    ensures Rsi(xs, period) == if Wilder(Losses(xs), period) == 0.0 then 100.0 else 0.0
  {
    NoGains(xs);
    AveragesNonneg(xs, period);
    AllZero(Gains(xs), period);
    if Wilder(Losses(xs), period) != 0.0 { StrengthFraction(0.0, Wilder(Losses(xs), period)); }
  }

  // ----- bounds -----

  ghost predicate Within(lo: real, xs: seq<real>, hi: real) { forall i :: 0 <= i < |xs| ==> lo <= xs[i] <= hi }

  lemma WithinFront(lo: real, xs: seq<real>, hi: real)
    requires Within(lo, xs, hi) && |xs| != 0
    ensures Within(lo, xs[..|xs| - 1], hi) && lo <= xs[|xs| - 1] <= hi
  {
    assert forall i :: 0 <= i < |xs| - 1 ==> xs[..|xs| - 1][i] == xs[i];
  }

  lemma OneMore(a: real, n: real)
    ensures a * (n + 1.0) == a * n + a
  {}

  lemma {:induction false} TotalWithin(lo: real, xs: seq<real>, hi: real)
    requires Within(lo, xs, hi)
    ensures lo * |xs| as real <= Total(xs) <= hi * |xs| as real
  {
    if |xs| != 0 {
      WithinFront(lo, xs, hi);
      TotalWithin(lo, xs[..|xs| - 1], hi);
      var n := (|xs| - 1) as real;
      assert |xs| as real == n + 1.0;
      OneMore(lo, n);
      OneMore(hi, n);
    }
  }

  lemma MeanWithin(lo: real, xs: seq<real>, hi: real)
    requires Within(lo, xs, hi) && |xs| != 0
    ensures lo <= Mean(xs) <= hi
  {
    TotalWithin(lo, xs, hi);
    QuotientBounds(lo, Total(xs), |xs| as real, hi);
  }

  lemma MultiplierRange(period: int)
    requires period >= 1
    ensures 0.0 < Multiplier(period) <= 1.0
  {
    var d := (period + 1) as real;
    DivPos(2.0, d);
    DivMono(2.0, d, d);
    MulDiv(1.0, d);
  }

  lemma Complement(x: real, m: real, k: real)
    requires k == 1.0 - m
    ensures x * k == x - x * m
  {}

  lemma Shares(x: real, y: real, m: real, k: real)
    requires k == 1.0 - m && x >= 0.0 && y >= 0.0 && m >= 0.0 && k >= 0.0
    ensures (y - x) * m + x >= 0.0
  {
    Complement(x, m, k);
    MulNonneg(y, m);
    MulNonneg(x, k);
    assert (y - x) * m == y * m - x * m;
  }

  /** A point between two bounded values is bounded. */
  lemma TowardWithin(before: real, now: real, m: real, lo: real, hi: real)
    requires lo <= before <= hi && lo <= now <= hi && 0.0 <= m <= 1.0
    ensures lo <= Toward(before, now, m) <= hi
  {
    Shares(before - lo, now - lo, m, 1.0 - m);
    Shares(hi - before, hi - now, m, 1.0 - m);
    assert now - lo - (before - lo) == now - before;
    assert (hi - now - (hi - before)) * m == -((now - before) * m);
  }

  /** The EMA lies within every pair of bounds on the values seen, and so within their extremes. */
  lemma {:induction false} EmaWithin(lo: real, xs: seq<real>, hi: real, period: int)
    requires 1 <= period <= |xs| && Within(lo, xs, hi)
    ensures lo <= Ema(xs, period) <= hi
  {
    if |xs| == period {
      MeanWithin(lo, xs, hi);
    } else {
      WithinFront(lo, xs, hi);
      EmaWithin(lo, xs[..|xs| - 1], hi, period);
      MultiplierRange(period);
      TowardWithin(Ema(xs[..|xs| - 1], period), xs[|xs| - 1], Multiplier(period), lo, hi);
    }
  }

  lemma OneMoreTime(a: real, n: real, d: real)
    requires d == n + 1.0
    ensures a * d == n * a + a
  {}

  lemma SmoothWithin(before: real, now: real, period: int, lo: real, hi: real)
    requires lo <= before <= hi && lo <= now <= hi && period >= 1
    ensures lo <= Smooth(before, now, period) <= hi
  {
    var n, d := (period - 1) as real, period as real;
    OneMoreTime(lo, n, d);
    OneMoreTime(hi, n, d);
    MulMono(n, lo, before);
    MulMono(n, before, hi);
    var total := before * (period - 1) as real + now;
    assert total == n * before + now;
    QuotientBounds(lo, total, d, hi);
  }

  lemma {:induction false} WilderWithin(lo: real, xs: seq<real>, hi: real, period: int)
    requires 1 <= period <= |xs| && Within(lo, xs, hi)
    ensures lo <= Wilder(xs, period) <= hi
  {
    if |xs| == period {
      MeanWithin(lo, xs, hi);
    } else {
      WithinFront(lo, xs, hi);
      WilderWithin(lo, xs[..|xs| - 1], hi, period);
      SmoothWithin(Wilder(xs[..|xs| - 1], period), xs[|xs| - 1], period, lo, hi);
    }
  }

  /** The ATR lies within every pair of bounds on the true ranges seen. */
  lemma AtrWithin(lo: real, highs: seq<real>, lows: seq<real>, closes: seq<real>, hi: real, period: int)
    requires |highs| == |lows| == |closes| && 1 <= period <= |highs|
    requires Within(lo, TrueRanges(highs, lows, closes), hi)
    ensures lo <= Atr(highs, lows, closes, period) <= hi
  {
    WilderWithin(lo, TrueRanges(highs, lows, closes), hi, period);
  }

  lemma {:induction false} Bound(xs: seq<real>) returns (hi: real)
    requires forall i :: 0 <= i < |xs| ==> xs[i] >= 0.0
    ensures Within(0.0, xs, hi)
  {
    if |xs| == 0 {
      hi := 0.0;
    } else {
      var front := xs[..|xs| - 1];
      assert forall i :: 0 <= i < |front| ==> front[i] == xs[i];
      hi := Bound(front);
      hi := Max(hi, xs[|xs| - 1]);
    }
  }

  lemma {:induction false} ChangesNonneg(xs: seq<real>)
    ensures forall i :: 0 <= i < |Gains(xs)| ==> Gains(xs)[i] >= 0.0
    ensures forall i :: 0 <= i < |Losses(xs)| ==> Losses(xs)[i] >= 0.0
  {
    if |xs| > 1 { ChangesNonneg(xs[..|xs| - 1]); }
  }

  lemma AveragesNonneg(xs: seq<real>, period: int)
    requires 1 <= period < |xs|
    ensures Wilder(Gains(xs), period) >= 0.0 && Wilder(Losses(xs), period) >= 0.0
  {
    ChangesNonneg(xs);
    var g := Bound(Gains(xs));
    var l := Bound(Losses(xs));
    WilderWithin(0.0, Gains(xs), g, period);
    WilderWithin(0.0, Losses(xs), l, period);
  }

  // ----- RSI range and symmetry -----

  lemma StrengthFraction(gain: real, loss: real)
    requires gain >= 0.0 && loss > 0.0
    ensures Strength(gain, loss) == 100.0 * gain / (gain + loss)
  {
    DivNonneg(gain, loss);
    var r := gain / loss;
    DivMul(gain, loss);
    assert (1.0 + r) * loss == gain + loss;
    var q := 100.0 / (1.0 + r);
    DivMul(100.0, 1.0 + r);
    assert q * (gain + loss) == q * (1.0 + r) * loss == 100.0 * loss;
    assert (100.0 - q) * (gain + loss) == 100.0 * gain;
    MulDiv(100.0 - q, gain + loss);
  }

  lemma StrengthRange(gain: real, loss: real)
    requires gain >= 0.0 && loss >= 0.0
    ensures 0.0 <= Strength(gain, loss) <= 100.0
  {
    if loss > 0.0 {
      StrengthFraction(gain, loss);
      QuotientBounds(0.0, 100.0 * gain, gain + loss, 100.0);
    }
  }

  lemma SharesAddUp(gain: real, loss: real, d: real)
    requires d == gain + loss > 0.0
    ensures 100.0 * gain / d + 100.0 * loss / d == 100.0
  {
    DivMul(100.0 * gain, d);
    DivMul(100.0 * loss, d);
    var p, q := 100.0 * gain / d, 100.0 * loss / d;
    assert (p + q) * d == p * d + q * d;
    MulDiv(p + q, d);
    MulDiv(100.0, d);
  }

  /** Swapping the averages mirrors the index, except where there was no movement at all: there both are 100. */
  lemma StrengthMirrors(gain: real, loss: real)
    requires gain >= 0.0 && loss >= 0.0
    ensures Strength(loss, gain) == 100.0 - Strength(gain, loss) <==> gain != 0.0 || loss != 0.0
  {
    if gain > 0.0 && loss > 0.0 {
      StrengthFraction(gain, loss);
      StrengthFraction(loss, gain);
      SharesAddUp(gain, loss, gain + loss);
    } else if gain > 0.0 {
      StrengthFraction(loss, gain);
    } else if loss > 0.0 {
      StrengthFraction(gain, loss);
    }
  }

  lemma RsiRange(xs: seq<real>, period: int)
    requires 1 <= period < |xs|
    ensures 0.0 <= Rsi(xs, period) <= 100.0
  {
    AveragesNonneg(xs, period);
    StrengthRange(Wilder(Gains(xs), period), Wilder(Losses(xs), period));
  }

  function Mirrored(c: real, xs: seq<real>): seq<real> { seq(|xs|, i requires 0 <= i < |xs| => c - xs[i]) }

  lemma {:induction false} MirroredChanges(c: real, xs: seq<real>)
    ensures Gains(Mirrored(c, xs)) == Losses(xs) && Losses(Mirrored(c, xs)) == Gains(xs)
  {
    if |xs| > 1 {
      var front := xs[..|xs| - 1];
      MirroredChanges(c, front);
      assert Mirrored(c, xs)[..|xs| - 1] == Mirrored(c, front);
    }
  }

  /** RSI(c - x) = 100 - RSI(x) exactly where average gain and average loss are not both zero. */
  lemma RsiMirrors(c: real, xs: seq<real>, period: int)
    requires 1 <= period < |xs|
    ensures Rsi(Mirrored(c, xs), period) == 100.0 - Rsi(xs, period)
            <==> Wilder(Gains(xs), period) != 0.0 || Wilder(Losses(xs), period) != 0.0
  {
    MirroredChanges(c, xs);
    AveragesNonneg(xs, period);
    StrengthMirrors(Wilder(Gains(xs), period), Wilder(Losses(xs), period));
  }

  // ----- the EMA commutes with affine maps -----

  function Line(a: real, x: real, b: real): real { a * x + b }

  function Affine(a: real, xs: seq<real>, b: real): seq<real> {
    seq(|xs|, i requires 0 <= i < |xs| => Line(a, xs[i], b))
  }

  lemma {:induction false} TotalAffine(a: real, xs: seq<real>, b: real)
    ensures Total(Affine(a, xs, b)) == a * Total(xs) + b * |xs| as real
  {
    if |xs| != 0 {
      var front := xs[..|xs| - 1];
      TotalAffine(a, front, b);
      assert Affine(a, xs, b)[..|xs| - 1] == Affine(a, front, b);
      var n := |front| as real;
      assert |xs| as real == n + 1.0;
      assert b * (n + 1.0) == b * n + b;
      assert a * (Total(front) + xs[|xs| - 1]) == a * Total(front) + a * xs[|xs| - 1];
    }
  }

  lemma MeanAffine(a: real, xs: seq<real>, b: real)
    requires |xs| != 0
    ensures Mean(Affine(a, xs, b)) == Line(a, Mean(xs), b)
  {
    TotalAffine(a, xs, b);
    var n := |xs| as real;
    DivMul(Total(xs), n);
    assert (a * Mean(xs) + b) * n == a * (Mean(xs) * n) + b * n;
    MulDiv(a * Mean(xs) + b, n);
  }

  lemma TowardAffine(a: real, b: real, before: real, now: real, m: real)
    ensures Toward(Line(a, before, b), Line(a, now, b), m) == Line(a, Toward(before, now, m), b)
  {
    var d := now - before;
    assert Line(a, now, b) - Line(a, before, b) == a * d;
    assert a * d * m == a * (d * m);
  }

  lemma {:induction false} EmaAffine(a: real, xs: seq<real>, b: real, period: int)
    requires 1 <= period <= |xs|
    ensures Ema(Affine(a, xs, b), period) == Line(a, Ema(xs, period), b)
  {
    if |xs| == period {
      MeanAffine(a, xs, b);
    } else {
      var front := xs[..|xs| - 1];
      EmaAffine(a, front, b, period);
      assert Affine(a, xs, b)[..|xs| - 1] == Affine(a, front, b);
      TowardAffine(a, b, Ema(front, period), xs[|xs| - 1], Multiplier(period));
    }
  }

  lemma MirroredIsAffine(c: real, xs: seq<real>)
    ensures Mirrored(c, xs) == Affine(-1.0, xs, c)
  {}

  /** Upside down, the EMA is upside down. */
  lemma EmaMirrors(c: real, xs: seq<real>, period: int)
    requires 1 <= period <= |xs|
    ensures Ema(Mirrored(c, xs), period) == c - Ema(xs, period)
  {
    MirroredIsAffine(c, xs);
    EmaAffine(-1.0, xs, c, period);
  }

  lemma TrueRangeMirrors(c: real, high: real, low: real, previousClose: Option<real>)
    ensures TrueRange(c - low, c - high, if previousClose == None then None else Some(c - previousClose.value))
         == TrueRange(high, low, previousClose)
  {}

  /** Upside down, highs and lows change places, and every true range stays. */
  lemma {:induction false} TrueRangesMirror(c: real, highs: seq<real>, lows: seq<real>, closes: seq<real>)
    requires |highs| == |lows| == |closes|
    ensures TrueRanges(Mirrored(c, lows), Mirrored(c, highs), Mirrored(c, closes)) == TrueRanges(highs, lows, closes)
  {
    var n := |highs| - 1;
    if n >= 0 {
      TrueRangesMirror(c, highs[..n], lows[..n], closes[..n]);
      assert Mirrored(c, lows)[..n] == Mirrored(c, lows[..n]) && Mirrored(c, highs)[..n] == Mirrored(c, highs[..n]);
      assert Mirrored(c, closes)[..n] == Mirrored(c, closes[..n]);
      TrueRangeMirrors(c, highs[n], lows[n], if n > 0 then Some(closes[n - 1]) else None);
    }
  }

  // ----- the loops -----

  /** None during the warm-up, and then the value that only the inputs up to i determine. */
  ghost predicate IsEma(s: Series, xs: seq<real>, period: int)
    requires period >= 1
  {
    |s| == |xs|
    && forall i :: 0 <= i < |xs| ==> s[i] == if i + 1 < period then None else Some(Ema(xs[..i + 1], period))
  }

  ghost predicate IsRsi(s: Series, xs: seq<real>, period: int)
    requires period >= 1
  {
    |s| == |xs|
    && forall i :: 0 <= i < |xs| ==> s[i] == if i < period then None else Some(Rsi(xs[..i + 1], period))
  }

  ghost predicate IsAtr(s: Series, highs: seq<real>, lows: seq<real>, closes: seq<real>, period: int)
    requires period >= 1 && |highs| == |lows| == |closes|
  {
    |s| == |highs|
    && forall i :: 0 <= i < |highs| ==>
         s[i] == if i + 1 < period then None else Some(Atr(highs[..i + 1], lows[..i + 1], closes[..i + 1], period))
  }

  lemma EmaNext(xs: seq<real>, period: int, n: nat)
    requires 1 <= period <= n < |xs|
    ensures Ema(xs[..n + 1], period) == Toward(Ema(xs[..n], period), xs[n], Multiplier(period))
  {
    assert xs[..n + 1][..n] == xs[..n];
  }

  method EmaSeries(values: seq<real>, period: int) returns (r: Result<Series, ValueError>)
    ensures period < 1 <==> r.Err?
    ensures period >= 1 ==> IsEma(r.value, values, period)
  {
    if period < 1 { return Err(BadPeriod(period)); }
    var n := |values|;
    var result := new Option<real>[n](_ => None);
    if n == 0 || n < period { return Ok(result[..]); }
    var multiplier := Multiplier(period);
    result[period - 1] := Some(Mean(values[..period]));
    var i := period;
    while i < n
      invariant period <= i <= n
      invariant forall j :: 0 <= j < n ==>
                  result[j] == if j + 1 < period || j >= i then None else Some(Ema(values[..j + 1], period))
    {
      EmaNext(values, period, i);
      result[i] := Some(Toward(result[i - 1].value, values[i], multiplier));
      i := i + 1;
    }
    return Ok(result[..]);
  }

  lemma ChangesPrefix(xs: seq<real>, n: nat)
    requires 1 <= n < |xs|
    ensures Gains(xs[..n + 1]) == Gains(xs[..n]) + [Gain(xs[n - 1], xs[n])]
    ensures Losses(xs[..n + 1]) == Losses(xs[..n]) + [Loss(xs[n - 1], xs[n])]
  {
    assert xs[..n + 1][..n] == xs[..n];
  }

  lemma {:induction false} ChangesTake(xs: seq<real>, n: nat)
    requires 1 <= n <= |xs|
    ensures Gains(xs[..n]) == Gains(xs)[..n - 1] && Losses(xs[..n]) == Losses(xs)[..n - 1]
  {
    if n == |xs| {
      assert xs[..n] == xs;
    } else {
      var front := xs[..|xs| - 1];
      assert front[..n] == xs[..n];
      ChangesTake(front, n);
    }
  }

  /** Every change of the series, split into its gain and its loss. */
  method SplitChanges(values: seq<real>) returns (gains: seq<real>, losses: seq<real>)
    requires |values| >= 1
    ensures gains == Gains(values) && losses == Losses(values)
  {
    gains, losses := [], [];
    for i := 1 to |values|
      invariant gains == Gains(values[..i]) && losses == Losses(values[..i])
    {
      ChangesPrefix(values, i);
      var change := values[i] - values[i - 1];
      if change > 0.0 {
        gains, losses := gains + [change], losses + [0.0];
      } else {
        gains, losses := gains + [0.0], losses + [-change];
      }
    }
    assert values[..|values|] == values;
  }

  lemma RsiOfAverages(xs: seq<real>, period: int, gain: real, loss: real)
    requires 1 <= period < |xs|
    requires gain == Wilder(Gains(xs), period) && loss == Wilder(Losses(xs), period)
    ensures gain >= 0.0 && loss >= 0.0 && Rsi(xs, period) == Strength(gain, loss)
  {
    AveragesNonneg(xs, period);
  }

  /** The averages of the prefix that ends at i are averages of the first i changes. */
  lemma RsiAt(xs: seq<real>, period: int, i: nat, gain: real, loss: real)
    requires 1 <= period <= i < |xs|
    requires gain == Wilder(Gains(xs)[..i], period) && loss == Wilder(Losses(xs)[..i], period)
    ensures gain >= 0.0 && loss >= 0.0 && Rsi(xs[..i + 1], period) == Strength(gain, loss)
  {
    ChangesTake(xs, i + 1);
    RsiOfAverages(xs[..i + 1], period, gain, loss);
  }

  lemma WilderNext(xs: seq<real>, period: int, n: nat)
    requires 1 <= period <= n < |xs|
    ensures Wilder(xs[..n + 1], period) == Smooth(Wilder(xs[..n], period), xs[n], period)
  {
    assert xs[..n + 1][..n] == xs[..n];
  }

  lemma NextAverages(gains: seq<real>, losses: seq<real>, period: int, n: nat)
    requires 1 <= period <= n < |gains| == |losses|
    ensures Wilder(gains[..n + 1], period) == Smooth(Wilder(gains[..n], period), gains[n], period)
    ensures Wilder(losses[..n + 1], period) == Smooth(Wilder(losses[..n], period), losses[n], period)
  {
    WilderNext(gains, period, n);
    WilderNext(losses, period, n);
  }

  /** The series is right before index n and still empty from there on. */
  ghost predicate RsiUpTo(s: Series, xs: seq<real>, period: int, n: nat)
    requires period >= 1
  {
    |s| == |xs|
    && forall j :: 0 <= j < |xs| ==> s[j] == if j < period || j >= n then None else Some(Rsi(xs[..j + 1], period))
  }

  lemma RsiExtend(s: Series, xs: seq<real>, period: int, i: nat, gain: real, loss: real)
    requires 1 <= period <= i < |xs| && RsiUpTo(s, xs, period, i)
    requires gain == Wilder(Gains(xs)[..i], period) && loss == Wilder(Losses(xs)[..i], period)
    ensures gain >= 0.0 && loss >= 0.0 && RsiUpTo(s[i := Some(Strength(gain, loss))], xs, period, i + 1)
  {
    RsiAt(xs, period, i, gain, loss);
  }

  lemma RsiNext(s: Series, xs: seq<real>, period: int, i: nat, gains: seq<real>, losses: seq<real>)
    requires 1 <= period < i < |xs| && gains == Gains(xs) && losses == Losses(xs) && RsiUpTo(s, xs, period, i)
    ensures i <= |gains| == |losses|
    ensures var gain := Smooth(Wilder(gains[..i - 1], period), gains[i - 1], period);
            var loss := Smooth(Wilder(losses[..i - 1], period), losses[i - 1], period);
            && gain == Wilder(gains[..i], period) && loss == Wilder(losses[..i], period)
            && gain >= 0.0 && loss >= 0.0
            && RsiUpTo(s[i := Some(Strength(gain, loss))], xs, period, i + 1)
  {
    NextAverages(gains, losses, period, i - 1);
    RsiExtend(s, xs, period, i, Wilder(gains[..i], period), Wilder(losses[..i], period));
  }

  method RsiSeries(values: seq<real>, period: int) returns (r: Result<Series, ValueError>)
    ensures period < 1 <==> r.Err?
    ensures period >= 1 ==> IsRsi(r.value, values, period)
  {
    if period < 1 { return Err(BadPeriod(period)); }
    var n := |values|;
    var result := new Option<real>[n](_ => None);
    if n < period + 1 { return Ok(result[..]); }
    // The second length test of the source cannot fail: there are n - 1 changes.
    var gains, losses := SplitChanges(values);
    var avgGain, avgLoss := Mean(gains[..period]), Mean(losses[..period]);
    ghost var empty := result[..];
    RsiExtend(empty, values, period, period, avgGain, avgLoss);
    result[period] := Some(Strength(avgGain, avgLoss));
    assert result[..] == empty[period := Some(Strength(avgGain, avgLoss))];
    var i := period + 1;
    while i < n
      invariant period < i <= n
      invariant avgGain == Wilder(gains[..i - 1], period) && avgLoss == Wilder(losses[..i - 1], period)
      invariant RsiUpTo(result[..], values, period, i)
    {
      ghost var before := result[..];
      RsiNext(before, values, period, i, gains, losses);
      avgGain := Smooth(avgGain, gains[i - 1], period);
      avgLoss := Smooth(avgLoss, losses[i - 1], period);
      result[i] := Some(Strength(avgGain, avgLoss));
      assert result[..] == before[i := Some(Strength(avgGain, avgLoss))];
      i := i + 1;
    }
    return Ok(result[..]);
  }

  method AtrSeries(highs: seq<real>, lows: seq<real>, closes: seq<real>, period: int)
    returns (r: Result<Series, ValueError>)
    ensures r.Err? <==> period < 1 || !(|highs| == |lows| == |closes|)
    ensures r.Ok? ==> IsAtr(r.value, highs, lows, closes, period)
  {
    if period < 1 { return Err(BadPeriod(period)); }
    if !(|highs| == |lows| == |closes|) { return Err(LengthMismatch); }
    var n := |highs|;
    var result := new Option<real>[n](_ => None);
    if n < period { return Ok(result[..]); }
    var ranges := ListRanges(highs, lows, closes);
    result[period - 1] := Some(Mean(ranges[..period]));
    var i := period;
    while i < n
      invariant period <= i <= n
      invariant forall j :: 0 <= j < n ==>
                  result[j] == if j + 1 < period || j >= i then None else Some(Wilder(ranges[..j + 1], period))
    {
      WilderNext(ranges, period, i);
      result[i] := Some(Smooth(result[i - 1].value, ranges[i], period));
      i := i + 1;
    }
    AtrFromRanges(result[..], highs, lows, closes, period);
    return Ok(result[..]);
  }

  method ListRanges(highs: seq<real>, lows: seq<real>, closes: seq<real>) returns (ranges: seq<real>)
    requires |highs| == |lows| == |closes|
    ensures ranges == TrueRanges(highs, lows, closes)
  {
    ranges := [];
    for i := 0 to |highs|
      invariant ranges == TrueRanges(highs[..i], lows[..i], closes[..i])
    {
      RangesPrefix(highs, lows, closes, i);
      ranges := ranges + [TrueRange(highs[i], lows[i], if i > 0 then Some(closes[i - 1]) else None)];
    }
    assert highs[..|highs|] == highs && lows[..|highs|] == lows && closes[..|highs|] == closes;
  }

  lemma AtrFromRanges(s: Series, highs: seq<real>, lows: seq<real>, closes: seq<real>, period: int)
    requires period >= 1 && |highs| == |lows| == |closes| == |s|
    requires forall j :: 0 <= j < |s| ==>
               s[j] == if j + 1 < period then None else Some(Wilder(TrueRanges(highs, lows, closes)[..j + 1], period))
    ensures IsAtr(s, highs, lows, closes, period)
  {
    forall j | 0 <= j < |s|
      ensures s[j] == if j + 1 < period then None
                      else Some(Atr(highs[..j + 1], lows[..j + 1], closes[..j + 1], period))
    {
      RangesTake(highs, lows, closes, j + 1);
    }
  }

  lemma RangesPrefix(highs: seq<real>, lows: seq<real>, closes: seq<real>, i: nat)
    requires |highs| == |lows| == |closes| && i < |highs|
    ensures TrueRanges(highs[..i + 1], lows[..i + 1], closes[..i + 1])
         == TrueRanges(highs[..i], lows[..i], closes[..i])
            + [TrueRange(highs[i], lows[i], if i > 0 then Some(closes[i - 1]) else None)]
  {
    assert highs[..i + 1][..i] == highs[..i] && lows[..i + 1][..i] == lows[..i] && closes[..i + 1][..i] == closes[..i];
  }

  lemma {:induction false} RangesTake(highs: seq<real>, lows: seq<real>, closes: seq<real>, n: nat)
    requires |highs| == |lows| == |closes| && n <= |highs|
    ensures TrueRanges(highs[..n], lows[..n], closes[..n]) == TrueRanges(highs, lows, closes)[..n]
  {
    var m := |highs| - 1;
    if n == |highs| {
      assert highs[..n] == highs && lows[..n] == lows && closes[..n] == closes;
    } else {
      assert highs[..m][..n] == highs[..n] && lows[..m][..n] == lows[..n] && closes[..m][..n] == closes[..n];
      RangesTake(highs[..m], lows[..m], closes[..m], n);
    }
  }
}
