/** The technical indicators of analyze_and_publish.py: RSI (Cutler's variant, a plain
    rolling mean of gains over losses), MACD 12/26/9 and ATR (a rolling mean of the
    true range). Prices are columns with no missing value. */
module Indicators {
  import opened Wrappers
  import opened Series
  import opened Ewm
  import opened Numerics

  // ---------------------------------------------------------------------------
  // RSI

  /** `clip(lower=0)` of one difference. */
  function Rise(x: real): (r: real)
    ensures 0.0 <= r
  {
    if x < 0.0 then 0.0 else x
  }

  /** `-clip(upper=0)` of one difference. */
  function Fall(x: real): (r: real)
    ensures 0.0 <= r
  {
    if x > 0.0 then 0.0 else -x
  }

  /** `diff.clip(lower=0)`: the rise, missing where the difference is missing. */
  function Gain(d: Column): (r: Column)
    ensures |r| == |d|
  {
    seq(|d|, i requires 0 <= i < |d| =>
      match d[i]
      case Some(x) => Some(Rise(x))
      case None => None)
  }

  /** `-diff.clip(upper=0)`: the fall as a non-negative number. */
  function Loss(d: Column): (r: Column)
    ensures |r| == |d|
  {
    seq(|d|, i requires 0 <= i < |d| =>
      match d[i]
      case Some(x) => Some(Fall(x))
      case None => None)
  }

  /** `up.rolling(period).mean()` */
  function AvgGain(close: seq<real>, period: nat): (r: Column)
    requires 1 <= period
    ensures |r| == |close|
  {
    RollingMean(Gain(Diff(close)), period)
  }

  /** `down.rolling(period).mean()` */
  function AvgLoss(close: seq<real>, period: nat): (r: Column)
    requires 1 <= period
    ensures |r| == |close|
  {
    RollingMean(Loss(Diff(close)), period)
  }

  /** `100 - 100/(1 + up/down)` on one row, with pandas' float division: a positive
      gain over a zero loss is +inf and gives 100; zero over zero is NaN. */
  function RsiPoint(u: Option<real>, d: Option<real>): Option<real>
    requires u.Some? ==> 0.0 <= u.value
    requires d.Some? ==> 0.0 <= d.value
  {
    if u.None? || d.None? then None
    else if d.value != 0.0 then
      DivNonNegative(u.value, d.value);
      Some(100.0 - 100.0 / (1.0 + u.value / d.value))
    else if u.value != 0.0 then Some(100.0)
    else None
  }

  lemma GainLossNonNegative(close: seq<real>, period: nat)
    requires 1 <= period
    ensures NonNegative(AvgGain(close, period)) && NonNegative(AvgLoss(close, period))
  {
    RollingMeanNonNegative(Gain(Diff(close)), period);
    RollingMeanNonNegative(Loss(Diff(close)), period);
  }

  /** `rsi(close, period)` */
  function Rsi(close: seq<real>, period: nat): (r: Column)
    requires 1 <= period
    ensures |r| == |close|
  {
    var up := AvgGain(close, period);
    var down := AvgLoss(close, period);
    GainLossNonNegative(close, period);
    seq(|close|, i requires 0 <= i < |close| => RsiPoint(up[i], down[i]))
  }

  /** Gains and losses exist from the second row on, are non-negative, at most one of
      them is non-zero, and gain - loss is the close-to-close difference. */
  lemma GainLossSplit(close: seq<real>)
    ensures forall i :: 0 <= i < |close| ==>
              (Gain(Diff(close))[i].Some? <==> 0 < i) && (Loss(Diff(close))[i].Some? <==> 0 < i)
    ensures forall i :: 0 < i < |close| ==>
              var g, l := Gain(Diff(close))[i].value, Loss(Diff(close))[i].value;
              0.0 <= g && 0.0 <= l && (g == 0.0 || l == 0.0) && g - l == close[i] - close[i - 1]
  {
  }

  /** With the first difference missing, no window of `period` differences is complete
      before row `period`, so RSI is missing there. */
  lemma RsiUndefinedBeforePeriod(close: seq<real>, period: nat)
    requires 1 <= period
    ensures forall i :: 0 <= i < |close| && i < period ==> Rsi(close, period)[i].None?
  {
    if 0 < |close| {
      GainLossSplit(close);
      RollingMeanAfterLeadingMissing(Gain(Diff(close)), period);
    }
  }

  lemma RsiPointRange(u: real, d: real)
    requires 0.0 <= u && 0.0 <= d && (u != 0.0 || d != 0.0)
    ensures var v := RsiPoint(Some(u), Some(d)).value;
            0.0 <= v <= 100.0 && (v < 100.0 <==> d != 0.0) && v * (u + d) == 100.0 * u
  {
    if d != 0.0 {
      var rs := u / d;
      assert rs * d == u;
      DivNonNegative(u, d);
      var q := 100.0 / (1.0 + rs);
      assert q * (1.0 + rs) == 100.0;
      assert 0.0 < q <= 100.0 by {
        assert (100.0 - q) == q * rs;
        MulNonNegative(q, rs);
      }
      assert (100.0 - q) * (u + d) == 100.0 * u by {
        assert (1.0 + rs) * d == u + d;
        assert q * (u + d) == 100.0 * d;
      }
    }
  }

  /** Where RSI is defined it lies in [0, 100]; it is below 100 exactly when the average
      loss is positive, and it equals 100·gain/(gain + loss) of the two averages. */
  lemma RsiRange(close: seq<real>, period: nat, i: nat)
    requires 1 <= period && i < |close| && Rsi(close, period)[i].Some?
    ensures AvgGain(close, period)[i].Some? && AvgLoss(close, period)[i].Some?
    ensures var v, u, d := Rsi(close, period)[i].value, AvgGain(close, period)[i].value,
                           AvgLoss(close, period)[i].value;
            0.0 <= v <= 100.0 && (v < 100.0 <==> 0.0 < d) && v * (u + d) == 100.0 * u
  {
    GainLossNonNegative(close, period);
    RsiPointRange(AvgGain(close, period)[i].value, AvgLoss(close, period)[i].value);
  }

  /** The closes over the RSI window of row `i` never move. */
  ghost predicate FlatWindow(close: seq<real>, period: nat, i: nat)
    requires i < |close|
  {
    forall k :: i + 1 - period <= k <= i && 0 < k ==> close[k] == close[k - 1]
  }

  /** The gains over the window of `period` differences ending at row `i`. */
  function WindowRises(close: seq<real>, period: nat, i: nat): (r: seq<real>)
    requires period <= i < |close|
    ensures |r| == period && forall k :: 0 <= k < period ==> 0.0 <= r[k]
  {
    var r := seq(period, k requires 0 <= k < period => Rise(close[i + 1 - period + k] - close[i - period + k]));
    assert forall k :: 0 <= k < period ==> r[k] == Rise(close[i + 1 - period + k] - close[i - period + k]);
    r
  }

  /** The losses over the same window. */
  function WindowFalls(close: seq<real>, period: nat, i: nat): (r: seq<real>)
    requires period <= i < |close|
    ensures |r| == period && forall k :: 0 <= k < period ==> 0.0 <= r[k]
  {
    var r := seq(period, k requires 0 <= k < period => Fall(close[i + 1 - period + k] - close[i - period + k]));
    assert forall k :: 0 <= k < period ==> r[k] == Fall(close[i + 1 - period + k] - close[i - period + k]);
    r
  }

  /** From row `period` on, the average gain is the mean of the rises in the window. */
  lemma GainWindow(close: seq<real>, period: nat, i: nat)
    requires 1 <= period <= i < |close|
    ensures AvgGain(close, period)[i] == Some(Sum(WindowRises(close, period, i)) / period as real)
  {
    var d := Diff(close);
    var rises := WindowRises(close, period, i);
    forall k | 0 <= k < period
      ensures Gain(d)[i + 1 - period + k] == Some(rises[k])
    {
      assert d[i + 1 - period + k] == Some(close[i + 1 - period + k] - close[i - period + k]);
    }
    WindowMeanOfValues(Gain(d), period, i, rises);
  }

  /** From row `period` on, the average loss is the mean of the falls in the window. */
  lemma LossWindow(close: seq<real>, period: nat, i: nat)
    requires 1 <= period <= i < |close|
    ensures AvgLoss(close, period)[i] == Some(Sum(WindowFalls(close, period, i)) / period as real)
  {
    var d := Diff(close);
    var falls := WindowFalls(close, period, i);
    forall k | 0 <= k < period
      ensures Loss(d)[i + 1 - period + k] == Some(falls[k])
    {
      assert d[i + 1 - period + k] == Some(close[i + 1 - period + k] - close[i - period + k]);
    }
    WindowMeanOfValues(Loss(d), period, i, falls);
  }

  /** Both averages at row `i`, from row `period` on. */
  lemma RsiWindow(close: seq<real>, period: nat, i: nat)
    requires 1 <= period <= i < |close|
    ensures AvgGain(close, period)[i] == Some(Sum(WindowRises(close, period, i)) / period as real)
    ensures AvgLoss(close, period)[i] == Some(Sum(WindowFalls(close, period, i)) / period as real)
  {
    GainWindow(close, period, i);
    LossWindow(close, period, i);
  }

  lemma FlatWindowIff(close: seq<real>, period: nat, i: nat)
    requires 1 <= period <= i < |close|
    ensures FlatWindow(close, period, i) <==>
              Sum(WindowRises(close, period, i)) == 0.0 && Sum(WindowFalls(close, period, i)) == 0.0
  {
    var gs, ls := WindowRises(close, period, i), WindowFalls(close, period, i);
    var lo := i + 1 - period;
    SumZeroIff(gs);
    SumZeroIff(ls);
    if FlatWindow(close, period, i) {
      forall k | 0 <= k < period
        ensures gs[k] == 0.0 && ls[k] == 0.0
      {
        StepMoves(close, period, i, k);
      }
    } else {
      var k :| lo <= k <= i && 0 < k && close[k] != close[k - 1];
      StepMoves(close, period, i, k - lo);
    }
  }

  /** One step of the window: its gain and loss are both zero exactly when the close
      does not move. */
  lemma StepMoves(close: seq<real>, period: nat, i: nat, k: nat)
    requires period <= i < |close| && k < period
    ensures (WindowRises(close, period, i)[k] == 0.0 && WindowFalls(close, period, i)[k] == 0.0)
              <==> close[i + 1 - period + k] == close[i - period + k]
  {
    var x := close[i + 1 - period + k] - close[i - period + k];
    assert WindowRises(close, period, i)[k] == Rise(x);
    assert WindowFalls(close, period, i)[k] == Fall(x);
  }

  lemma MeanZeroIff(s: real, n: real)
    requires 0.0 < n
    ensures s / n == 0.0 <==> s == 0.0
  {
    if s / n == 0.0 {
      assert s == (s / n) * n;
    }
  }

  /** RSI is defined exactly at rows from `period` on whose window of closes moves. */
  lemma RsiDefinedIff(close: seq<real>, period: nat, i: nat)
    requires 1 <= period && i < |close|
    ensures Rsi(close, period)[i].Some? <==> period <= i && !FlatWindow(close, period, i)
  {
    RsiUndefinedBeforePeriod(close, period);
    if period <= i {
      RsiWindow(close, period, i);
      FlatWindowIff(close, period, i);
      MeanZeroIff(Sum(WindowRises(close, period, i)), period as real);
      MeanZeroIff(Sum(WindowFalls(close, period, i)), period as real);
    }
  }

  // ---------------------------------------------------------------------------
  // MACD

  datatype Macd = Macd(line: seq<real>, signal: seq<real>, hist: seq<real>)

  /** Pointwise difference of two columns of equal length. */
  function Minus(x: seq<real>, y: seq<real>): (r: seq<real>)
    requires |x| == |y|
    ensures |r| == |x|
  {
    seq(|x|, i requires 0 <= i < |x| => x[i] - y[i])
  }

  /** `macd(close, fast, slow, signal)` */
  function MacdOf(close: seq<real>, fast: nat, slow: nat, signal: nat): (r: Macd)
    requires 1 <= fast && 1 <= slow && 1 <= signal
    ensures |r.line| == |close| && |r.signal| == |close| && |r.hist| == |close|
  {
    var line := Minus(Ema(close, fast), Ema(close, slow));
    var sig := Ema(line, signal);
    Macd(line, sig, Minus(line, sig))
  }

  /** `macd(close)` with the source's defaults: fast 12, slow 26, signal 9. */
  function DefaultMacd(close: seq<real>): (r: Macd)
    ensures |r.line| == |close| && |r.signal| == |close| && |r.hist| == |close|
    ensures forall i :: 0 <= i < |close| ==> r.line[i] == Ema(close, 12)[i] - Ema(close, 26)[i]
    ensures r.signal == Ema(r.line, 9)
    ensures forall i :: 0 <= i < |close| ==> r.hist[i] == r.line[i] - r.signal[i]
  {
    MacdShape(close, 12, 26, 9);
    MacdOf(close, 12, 26, 9)
  }

  /** MACD line = fast EMA - slow EMA and histogram = line - signal, pointwise; all three
      columns have the input's length, and all three start at zero. */
  lemma MacdShape(close: seq<real>, fast: nat, slow: nat, signal: nat)
    requires 1 <= fast && 1 <= slow && 1 <= signal
    ensures var m := MacdOf(close, fast, slow, signal);
            && |m.line| == |close| && |m.signal| == |close| && |m.hist| == |close|
            && m.signal == Ema(m.line, signal)
            && (forall i :: 0 <= i < |close| ==> m.line[i] == Ema(close, fast)[i] - Ema(close, slow)[i])
            && (forall i :: 0 <= i < |close| ==> m.hist[i] == m.line[i] - m.signal[i])
            && (0 < |close| ==> m.line[0] == 0.0 && m.signal[0] == 0.0 && m.hist[0] == 0.0)
  {
    var m := MacdOf(close, fast, slow, signal);
    EmaDefinition(close, fast);
    EmaDefinition(close, slow);
    EmaDefinition(m.line, signal);
  }

  /** A flat price gives a flat zero MACD. */
  lemma MacdOfConstant(close: seq<real>, c: real, fast: nat, slow: nat, signal: nat)
    requires 1 <= fast && 1 <= slow && 1 <= signal
    requires forall k :: 0 <= k < |close| ==> close[k] == c
    ensures var m := MacdOf(close, fast, slow, signal);
            forall i :: 0 <= i < |close| ==> m.line[i] == 0.0 && m.signal[i] == 0.0 && m.hist[i] == 0.0
  {
    var m := MacdOf(close, fast, slow, signal);
    EmaOfConstant(close, fast, c);
    EmaOfConstant(close, slow, c);
    EmaOfConstant(m.line, signal, 0.0);
  }

  // ---------------------------------------------------------------------------
  // ATR

  datatype Bar = Bar(high: real, low: real, close: real)

  function Closes(bars: seq<Bar>): (r: seq<real>)
    ensures |r| == |bars|
  {
    seq(|bars|, i requires 0 <= i < |bars| => bars[i].close)
  }

  /** `|x - prev|`, missing when `prev` is. */
  function AbsGap(x: real, prev: Option<real>): Option<real>
  {
    match prev
    case Some(p) => Some(Abs(x - p))
    case None => None
  }

  /** The three candidate ranges of one row, in the source's column order. */
  function RangeTerms(bar: Bar, prevClose: Option<real>): Column
  {
    [Some(Abs(bar.high - bar.low)), AbsGap(bar.high, prevClose), AbsGap(bar.low, prevClose)]
  }

  /** `tr` of `atr`: the row-wise max, skipping missing values, of |h-l|, |h-prev_c| and
      |l-prev_c|, with `prev_c = close.shift(1)`. */
  function TrueRange(bars: seq<Bar>): (r: Column)
    ensures |r| == |bars|
  {
    var prev := Shift(Closes(bars));
    seq(|bars|, i requires 0 <= i < |bars| => MaxSkipMissing(RangeTerms(bars[i], prev[i])))
  }

  /** `atr(df, period)` */
  function Atr(bars: seq<Bar>, period: nat): (r: Column)
    requires 1 <= period
    ensures |r| == |bars|
  {
    RollingMean(TrueRange(bars), period)
  }

  /** The true range is always defined and at least |high - low|; on the first row the
      missing previous close is skipped, leaving |h0 - l0|; later it is the largest of
      the three gaps. */
  lemma TrueRangeFacts(bars: seq<Bar>)
    ensures AllDefined(TrueRange(bars))
    ensures forall i :: 0 <= i < |bars| ==>
              0.0 <= Abs(bars[i].high - bars[i].low) <= TrueRange(bars)[i].value
    ensures 0 < |bars| ==> TrueRange(bars)[0] == Some(Abs(bars[0].high - bars[0].low))
    ensures forall i :: 0 < i < |bars| ==>
              var t, b, c := TrueRange(bars)[i].value, bars[i], bars[i - 1].close;
              && Abs(b.high - c) <= t && Abs(b.low - c) <= t
              && (t == Abs(b.high - b.low) || t == Abs(b.high - c) || t == Abs(b.low - c))
  {
    var tr := TrueRange(bars);
    var prev := Shift(Closes(bars));
    forall i | 0 <= i < |bars|
      ensures tr[i].Some? && Abs(bars[i].high - bars[i].low) <= tr[i].value
      ensures i == 0 ==> tr[i] == Some(Abs(bars[i].high - bars[i].low))
      ensures 0 < i ==>
                var t, b, c := tr[i].value, bars[i], bars[i - 1].close;
                && Abs(b.high - c) <= t && Abs(b.low - c) <= t
                && (t == Abs(b.high - b.low) || t == Abs(b.high - c) || t == Abs(b.low - c))
    {
      var terms := RangeTerms(bars[i], prev[i]);
      assert terms[0].Some?;
      if 0 < i {
        assert prev[i] == Some(bars[i - 1].close);
        assert terms[1].Some? && terms[2].Some?;
      }
    }
  }

  /** ATR is defined exactly from row `period - 1` on, and is never negative. */
  lemma AtrFacts(bars: seq<Bar>, period: nat)
    requires 1 <= period
    ensures forall i :: 0 <= i < |bars| ==> (Atr(bars, period)[i].Some? <==> period <= i + 1)
    ensures NonNegative(Atr(bars, period))
  {
    var tr := TrueRange(bars);
    TrueRangeFacts(bars);
    assert NonNegative(tr);
    RollingMeanNonNegative(tr, period);
    forall i | 0 <= i < |bars|
      ensures Atr(bars, period)[i].Some? <==> period <= i + 1
    {
      WindowOfDefined(tr, period, i);
    }
  }
}
