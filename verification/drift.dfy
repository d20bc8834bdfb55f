/** `drift_vol` of analyze_and_publish.py: the exponentially weighted mean of simple
    returns (the drift `mu`) and the square root of their exponentially weighted
    variance, clamped at zero (`sigma`). */
module Drift {
  import opened Wrappers
  import opened Series
  import opened Ewm
  import opened Numerics

  /** `close.pct_change()` with infinities replaced by NaN: row 0 has no predecessor,
      and a zero previous price gives ±inf or NaN, both missing. */
  function Returns(close: seq<real>): (r: Column)
    ensures |r| == |close|
  {
    seq(|close|, i requires 0 <= i < |close| =>
      if i == 0 || close[i - 1] == 0.0 then None else Some(close[i] / close[i - 1] - 1.0))
  }

  function Square(x: real): real
  {
    x * x
  }

  /** `ret ** 2`, NaN staying NaN. */
  function Squares(xs: Column): (r: Column)
    ensures |r| == |xs|
    ensures forall i :: 0 <= i < |xs| ==> (r[i].Some? <==> xs[i].Some?)
  {
    seq(|xs|, i requires 0 <= i < |xs| => match xs[i] case Some(x) => Some(Square(x)) case None => None)
  }

  /** `max(var, 0)`: the smallest non-negative number no smaller than `v`, which is
      `v` itself or 0. */
  function ClampVariance(v: real): (r: real)
    ensures 0.0 <= r && v <= r
    ensures r == v || r == 0.0
    ensures 0.0 <= v ==> r == v
  {
    if v < 0.0 then 0.0 else v
  }

  /** `(mu, sigma)`; `Undefined` is the pair of NaNs returned when no return is defined. */
  datatype DriftEstimate = Undefined | Estimate(mu: real, sigma: real)

  /** `ret.ewm(span=span, adjust=False).mean().iloc[-1]` */
  function MeanReturn(close: seq<real>, span: nat): Option<real>
    requires 1 <= |close| && 1 <= span
  {
    EwmMean(Returns(close), Alpha(span))[|close| - 1]
  }

  /** `(ret**2).ewm(span=span, adjust=False).mean().iloc[-1]` */
  function MeanSquaredReturn(close: seq<real>, span: nat): Option<real>
    requires 1 <= |close| && 1 <= span
  {
    EwmMean(Squares(Returns(close)), Alpha(span))[|close| - 1]
  }

  /** `drift_vol(close, span)` on a non-empty column. */
  function DriftOf(close: seq<real>, span: nat, m: Math): (r: DriftEstimate)
    requires 1 <= |close| && 1 <= span
    ensures r.Estimate? ==> MeanReturn(close, span) == Some(r.mu)
  {
    EstimateOf(MeanReturn(close, span), MeanSquaredReturn(close, span), m)
  }

  /** The pair read off the last row: both means defined give `(mu, sqrt(var))`, with
      the variance clipped at zero; otherwise the pair of NaNs. */
  function EstimateOf(mu: Option<real>, m2: Option<real>, m: Math): (r: DriftEstimate)
    ensures r.Estimate? <==> mu.Some? && m2.Some?
    ensures r.Estimate? ==> mu == Some(r.mu)
  {
    if mu.Some? && m2.Some? then
      Estimate(mu.value, m.sqrt(ClampVariance(m2.value - Square(mu.value))))
    else
      Undefined
  }

  /** `drift_vol(close, span)`: an empty column has no last row to read. */
  function DriftVol(close: seq<real>, span: nat, m: Math): (r: Result<DriftEstimate, AnalysisError>)
    requires 1 <= span
    ensures r.Err? <==> |close| == 0
    ensures r.Err? ==> r.error == EmptySeries
  {
    if |close| == 0 then Err(EmptySeries) else Ok(DriftOf(close, span, m))
  }

  /** The simple returns from row 1 on. */
  function SimpleReturns(close: seq<real>): (r: seq<real>)
    requires forall i :: 0 <= i < |close| - 1 ==> close[i] != 0.0
    ensures |r| == if |close| == 0 then 0 else |close| - 1
  {
    seq(if |close| == 0 then 0 else |close| - 1,
        j requires 0 <= j < |close| - 1 => close[j + 1] / close[j] - 1.0)
  }

  lemma LastOfEwm(xs: Column, a: real)
    requires ValidAlpha(a) && 0 < |xs|
    ensures EwmMean(xs, a)[|xs| - 1] == EwmFold(xs, a).weighted
  {
    assert xs[..|xs|] == xs;
  }

  /** The estimate is defined exactly when some price other than the last is non-zero,
      i.e. when at least one return is defined. */
  lemma DriftDefinedIff(close: seq<real>, span: nat, m: Math)
    requires 1 <= |close| && 1 <= span
    ensures DriftOf(close, span, m).Estimate? <==>
              exists i :: 0 <= i < |close| - 1 && close[i] != 0.0
  {
    var a := Alpha(span);
    var ret := Returns(close);
    LastOfEwm(ret, a);
    LastOfEwm(Squares(ret), a);
    EwmFoldDefinedIff(ret, a);
    EwmFoldDefinedIff(Squares(ret), a);
    if exists i :: 0 <= i < |close| - 1 && close[i] != 0.0 {
      var i :| 0 <= i < |close| - 1 && close[i] != 0.0;
      assert ret[i + 1].Some?;
    }
  }

  /** `mu` is pandas' weighted mean of the returns at the last row, and, for a lawful
      square root, `sigma` is non-negative with sigma² = max(E[r²] - mu², 0). */
  lemma DriftSigma(close: seq<real>, span: nat, m: Math)
    requires 1 <= |close| && 1 <= span && SqrtLaw(m)
    ensures var e := DriftOf(close, span, m);
            e.Estimate? ==>
              && MeanReturn(close, span) == Some(e.mu)
              && MeanSquaredReturn(close, span).Some?
              && 0.0 <= e.sigma
              && Square(e.sigma) == ClampVariance(MeanSquaredReturn(close, span).value - Square(e.mu))
  {
    EstimateSigma(DriftOf(close, span, m), MeanReturn(close, span), MeanSquaredReturn(close, span), m);
  }

  /** DriftSigma for an estimate built from the two means, whatever they are. */
  lemma EstimateSigma(e: DriftEstimate, mu: Option<real>, m2: Option<real>, m: Math)
    requires SqrtLaw(m) && e == EstimateOf(mu, m2, m)
    ensures e.Estimate? ==>
              && m2.Some?
              && 0.0 <= e.sigma
              && Square(e.sigma) == ClampVariance(m2.value - Square(e.mu))
  {
    if mu.Some? && m2.Some? {
      SqrtOf(m, ClampVariance(m2.value - Square(mu.value)));
    }
  }

  lemma ReturnsOfNonZero(close: seq<real>)
    requires 1 <= |close|
    requires forall i :: 0 <= i < |close| - 1 ==> close[i] != 0.0
    ensures Returns(close) == [None] + Lift(SimpleReturns(close))
    ensures Squares(Returns(close)) == [None] + Lift(seq(|close| - 1, j requires 0 <= j < |close| - 1 => Square(SimpleReturns(close)[j])))
  {
    var sq := seq(|close| - 1, j requires 0 <= j < |close| - 1 => Square(SimpleReturns(close)[j]));
    assert Returns(close) == [None] + Lift(SimpleReturns(close));
    assert Squares(Returns(close)) == [None] + Lift(sq);
  }

  /** Without a zero price, the returns start at row 1 and pandas' weighted means are
      the EMA recurrence over the returns and their squares. */
  lemma DriftOfNonZeroPrices(close: seq<real>, span: nat, m: Math)
    requires 2 <= |close| && 1 <= span
    requires forall i :: 0 <= i < |close| - 1 ==> close[i] != 0.0
    ensures var rs := SimpleReturns(close);
            var sq := seq(|rs|, j requires 0 <= j < |rs| => Square(rs[j]));
            var mu := Ema(rs, span)[|rs| - 1];
            DriftOf(close, span, m) ==
              Estimate(mu, m.sqrt(ClampVariance(Ema(sq, span)[|rs| - 1] - Square(mu))))
  {
    var a := Alpha(span);
    var rs := SimpleReturns(close);
    var sq := seq(|rs|, j requires 0 <= j < |rs| => Square(rs[j]));
    var n := |close|;
    ReturnsOfNonZero(close);
    assert |rs| == n - 1;
    assert MeanReturn(close, span) == Some(Ema(rs, span)[n - 2]) by {
      assert Returns(close) == [None] + Lift(rs);
      EwmLastAfterLeadingMissing(rs, a);
    }
    assert MeanSquaredReturn(close, span) == Some(Ema(sq, span)[n - 2]) by {
      assert Squares(Returns(close)) == [None] + Lift(sq);
      EwmLastAfterLeadingMissing(sq, a);
    }
  }

  /** With positive prices every simple return exceeds -1, and so does their weighted
      mean, so the estimate is defined and log(1 + mu) exists. */
  lemma DriftAboveMinusOne(close: seq<real>, span: nat, m: Math)
    requires 2 <= |close| && 1 <= span
    requires forall i :: 0 <= i < |close| ==> 0.0 < close[i]
    ensures DriftOf(close, span, m).Estimate?
    ensures -1.0 < DriftOf(close, span, m).mu
  {
    var rs := SimpleReturns(close);
    DriftOfNonZeroPrices(close, span, m);
    forall j | 0 <= j < |rs|
      ensures -1.0 < rs[j]
    {
      DivPositive(close[j + 1], close[j]);
    }
    EmaBounded(rs, Alpha(span), Min(rs), Max(rs));
  }

  /** Five rising-on-balance closes 100, 101, 99, 102, 103 give a positive drift and,
      for a lawful square root, a positive volatility. */
  lemma RisingScenario(m: Math)
    requires SqrtLaw(m)
    ensures var e := DriftOf([100.0, 101.0, 99.0, 102.0, 103.0], 60, m);
            e.Estimate? && 0.0 < e.mu && 0.0 < e.sigma
  {
    var close := [100.0, 101.0, 99.0, 102.0, 103.0];
    var a := Alpha(60);
    assert a == 2.0 / 61.0;
    var rs := SimpleReturns(close);
    assert rs == [1.0 / 100.0, -2.0 / 101.0, 3.0 / 99.0, 1.0 / 102.0];
    var sq := seq(|rs|, j requires 0 <= j < |rs| => Square(rs[j]));
    assert sq == [1.0 / 10000.0, 4.0 / 10201.0, 9.0 / 9801.0, 1.0 / 10404.0];
    var mu := 12505142819.0 / 1286097044100.0;
    var m2 := 327391463010353.0 / 2429051487191670000.0;
    assert DriftOf(close, 60, m) == Estimate(mu, m.sqrt(ClampVariance(m2 - Square(mu)))) by {
      DriftOfNonZeroPrices(close, 60, m);
      RisingReturnsMean();
      RisingSquaresMean();
    }
    assert 0.0 < m2 - Square(mu);
    SqrtOf(m, ClampVariance(m2 - Square(mu)));
  }

  /** The weighted mean of the scenario's returns, step by step. */
  lemma RisingReturnsMean()
    ensures EmaWith([1.0 / 100.0, -2.0 / 101.0, 3.0 / 99.0, 1.0 / 102.0], 2.0 / 61.0)[3]
              == 12505142819.0 / 1286097044100.0
  {
    var rs := [1.0 / 100.0, -2.0 / 101.0, 3.0 / 99.0, 1.0 / 102.0];
    EmaRecurrence(rs, 2.0 / 61.0);
    var e := EmaWith(rs, 2.0 / 61.0);
    assert e[1] == 5559.0 / 616100.0;
    assert e[2] == 12055573.0 / 1240209300.0;
  }

  /** The weighted mean of the scenario's squared returns, step by step. */
  lemma RisingSquaresMean()
    ensures EmaWith([1.0 / 10000.0, 4.0 / 10201.0, 9.0 / 9801.0, 1.0 / 10404.0], 2.0 / 61.0)[3]
              == 327391463010353.0 / 2429051487191670000.0
  {
    var sq := [1.0 / 10000.0, 4.0 / 10201.0, 9.0 / 9801.0, 1.0 / 10404.0];
    EmaRecurrence(sq, 2.0 / 61.0);
    var e := EmaWith(sq, 2.0 / 61.0);
    assert e[1] == 681859.0 / 6222610000.0;
    assert e[2] == 56255342609.0 / 413361759690000.0;
  }
}
