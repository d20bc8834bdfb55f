/** The multi-scale estimates and the fixed horizon table of analyze_and_publish.py:
    a drift/volatility pair per time scale, chosen by how many rows there are, and a
    projected band for each of six horizons. */
module Forecast {
  import opened Wrappers
  import opened Series
  import opened Numerics
  import opened Drift
  import opened Projection

  /** Span of the 1-minute estimate. */
  const MinuteSpan: nat := 60
  /** The 15-minute scale: a 15-row rolling mean, span 40, needs at least 60 rows. */
  const QuarterWindow: nat := 15
  const QuarterSpan: nat := 40
  const QuarterMinRows: nat := 60
  /** The hourly scale: a 60-row rolling mean, span 30, needs at least 240 rows. */
  const HourWindow: nat := 60
  const HourSpan: nat := 30
  const HourMinRows: nat := 240

  /** `close.rolling(w).mean().dropna()` */
  function Smoothed(close: seq<real>, w: nat): seq<real>
    requires 1 <= w
  {
    DropMissing(RollingMean(Lift(close), w))
  }

  /** The smoothed column holds the mean of every run of `w` consecutive closes, in
      order, and is empty when there are fewer than `w` closes. */
  lemma SmoothedShape(close: seq<real>, w: nat)
    requires 1 <= w
    ensures w <= |close| ==> Smoothed(close, w) == WindowMeans(close, w)
    ensures |close| < w ==> Smoothed(close, w) == []
  {
    RollingMeanOfDefined(close, w);
    if w <= |close| {
      DropMissingAfterMissing(w - 1, WindowMeans(close, w));
    } else {
      DropMissingOfMissing(|close|);
    }
  }

  /** The three `(mu, sigma)` pairs: 1-minute, 15-minute and hourly. */
  datatype Scales = Scales(m1: DriftEstimate, m15: DriftEstimate, h1: DriftEstimate)

  /** The estimate for one coarser scale: `drift_vol` of the smoothed closes when there
      are at least `minRows` rows, otherwise the 1-minute estimate. With `minRows` no
      smaller than the window the smoothed column is never empty, so this never raises. */
  function CoarseEstimate(close: seq<real>, window: nat, span: nat, minRows: nat, m1: DriftEstimate, m: Math)
    : (r: Result<DriftEstimate, AnalysisError>)
    requires 1 <= window && 1 <= span
    ensures window <= minRows || |close| < minRows ==> r.Ok?
    ensures |close| < minRows ==> r == Ok(m1)
  {
    if minRows <= |close| then
      SmoothedShape(close, window);
      DriftVol(Smoothed(close, window), span, m)
    else Ok(m1)
  }

  /** The scale selection of `main`: the 1-minute estimate raises on an empty column; the
      coarser ones are computed only with enough rows, and then never raise. */
  function EstimateScales(close: seq<real>, m: Math): (r: Result<Scales, AnalysisError>)
    ensures r.Err? <==> |close| == 0
    ensures r.Err? ==> r.error == EmptySeries
  {
    match DriftVol(close, MinuteSpan, m)
    case Err(e) => Err(e)
    case Ok(m1) =>
      var m15 := CoarseEstimate(close, QuarterWindow, QuarterSpan, QuarterMinRows, m1, m);
      var h1 := CoarseEstimate(close, HourWindow, HourSpan, HourMinRows, m1, m);
      Ok(Scales(m1, m15.value, h1.value))
  }

  /** Which estimate each scale holds: the 1-minute one uses span 60 on the raw closes;
      the 15-minute one uses span 40 on the 15-row means exactly when there are at least
      60 rows, and otherwise repeats the 1-minute one; likewise the hourly one with span
      30 on the 60-row means and 240 rows. */
  lemma ScaleSelection(close: seq<real>, m: Math)
    requires 0 < |close|
    ensures var s := EstimateScales(close, m).value;
            && s.m1 == DriftOf(close, 60, m)
            && (60 <= |close| ==> s.m15 == DriftOf(WindowMeans(close, 15), 40, m))
            && (|close| < 60 ==> s.m15 == s.m1)
            && (240 <= |close| ==> s.h1 == DriftOf(WindowMeans(close, 60), 30, m))
            && (|close| < 240 ==> s.h1 == s.m1)
  {
    SmoothedShape(close, QuarterWindow);
    SmoothedShape(close, HourWindow);
  }

  /** For a lawful square root every volatility is non-negative. */
  lemma ScalesVolatility(close: seq<real>, m: Math)
    requires 0 < |close| && SqrtLaw(m)
    ensures VolatilitiesNonNegative(EstimateScales(close, m).value)
  {
    ScaleSelection(close, m);
    DriftSigma(close, 60, m);
    if 60 <= |close| {
      DriftSigma(WindowMeans(close, 15), 40, m);
    }
    if 240 <= |close| {
      DriftSigma(WindowMeans(close, 60), 30, m);
    }
  }

  /** With at least two positive closes every scale has an estimate, with mu > -1. */
  lemma ScalesOfPositivePrices(close: seq<real>, m: Math)
    requires 2 <= |close|
    requires forall i :: 0 <= i < |close| ==> 0.0 < close[i]
    ensures var s := EstimateScales(close, m).value;
            && s.m1.Estimate? && -1.0 < s.m1.mu
            && s.m15.Estimate? && -1.0 < s.m15.mu
            && s.h1.Estimate? && -1.0 < s.h1.mu
  {
    ScaleSelection(close, m);
    DriftAboveMinusOne(close, 60, m);
    if 60 <= |close| {
      WindowMeansPositive(close, 15);
      DriftAboveMinusOne(WindowMeans(close, 15), 40, m);
    }
    if 240 <= |close| {
      WindowMeansPositive(close, 60);
      DriftAboveMinusOne(WindowMeans(close, 60), 30, m);
    }
  }

  // ---------------------------------------------------------------------------
  // The horizon table

  datatype Scale = Minute | Quarter | Hour

  /** One row of the table: its label, the number of steps and the scale whose
      estimate drives it. */
  datatype Horizon = Horizon(name: string, steps: nat, scale: Scale)

  /** The six horizons; "1h" is 60 // 15 * 1 = 4 quarter-hour steps and "12h" is twelve
      hourly steps. */
  const Horizons: seq<Horizon> := [
    Horizon("1m", 1, Minute),
    Horizon("5m", 5, Minute),
    Horizon("15m", 15, Minute),
    Horizon("30m", 30, Minute),
    Horizon("1h", 60 / 15 * 1, Quarter),
    Horizon("12h", 12, Hour)
  ]

  function EstimateFor(s: Scales, sc: Scale): DriftEstimate
  {
    match sc
    case Minute => s.m1
    case Quarter => s.m15
    case Hour => s.h1
  }

  /** One forecast entry; the band is missing when the estimate is NaN, since then
      every value `project_price` returns is NaN. */
  datatype ForecastRow = ForecastRow(horizon: string, band: Option<Band>)

  /** Whether `project_price` goes through for horizon `h` at a positive price: the
      estimate is NaN (so is every value), or mu > -1 and the largest exponent,
      mean_log + |stdev|, is within exp's range. */
  predicate HorizonFits(price: real, h: Horizon, s: Scales, m: Math)
  {
    match EstimateFor(s, h.scale)
    case Undefined => true
    case Estimate(mu, sigma) =>
      -1.0 < mu && MeanLog(price, mu, h.steps, m) + Abs(StdevLog(sigma, h.steps, m)) <= ExpLimit
  }

  /** `project_price(price, mu, sigma, n)` for one horizon. With a NaN estimate
      `log(1 + mu)` is NaN without raising and `exp` of NaN is NaN, but `log(price)`
      still raises for a non-positive price. */
  function ProjectHorizon(price: real, h: Horizon, s: Scales, m: Math): (r: Result<ForecastRow, AnalysisError>)
    ensures r.Ok? <==> 0.0 < price && HorizonFits(price, h, s, m)
    ensures r.Ok? ==> r.value.horizon == h.name
    ensures r.Ok? ==> (r.value.band.None? <==> EstimateFor(s, h.scale).Undefined?)
    ensures r.Err? ==>
              (r.error == MathDomain <==>
                 price <= 0.0 || (EstimateFor(s, h.scale).Estimate? && EstimateFor(s, h.scale).mu <= -1.0))
    ensures r.Err? ==> r.error == MathDomain || r.error == MathRange
  {
    match EstimateFor(s, h.scale)
    case Undefined =>
      if price <= 0.0 then Err(MathDomain) else Ok(ForecastRow(h.name, None))
    case Estimate(mu, sigma) =>
      match ProjectPrice(price, mu, sigma, h.steps, m)
      case Err(e) => Err(e)
      case Ok(b) => Ok(ForecastRow(h.name, Some(b)))
  }

  /** A loop that stops at the first error: the values in order when every entry
      succeeds, otherwise the error of the first entry that fails. */
  function FirstError<T(==), E(==)>(rs: seq<Result<T, E>>): (r: Result<seq<T>, E>)
    ensures r.Ok? <==> forall i :: 0 <= i < |rs| ==> rs[i].Ok?
    ensures r.Ok? ==> |r.value| == |rs| && forall i :: 0 <= i < |rs| ==> rs[i] == Ok(r.value[i])
    ensures r.Err? ==>
              exists i :: 0 <= i < |rs| && rs[i] == Err(r.error)
                && forall j :: 0 <= j < i ==> rs[j].Ok?
    decreases |rs|
  {
    if |rs| == 0 then Ok([])
    else
      match rs[0]
      case Err(e) => Err(e)
      case Ok(v) =>
        var rest := FirstError(rs[1..]);
        assert forall i :: 1 <= i < |rs| ==> rs[i] == rs[1..][i - 1];
        if rest.Err? then
          var k :| 0 <= k < |rs[1..]| && rs[1..][k] == Err(rest.error)
                   && forall j :: 0 <= j < k ==> rs[1..][j].Ok?;
          assert rs[k + 1] == Err(rest.error);
          Err(rest.error)
        else Ok([v] + rest.value)
  }

  /** The loop over the table: rows in table order, stopping at the first error, which
      is then the error of the first row that raises. */
  function ProjectAll(price: real, hs: seq<Horizon>, s: Scales, m: Math): (r: Result<seq<ForecastRow>, AnalysisError>)
    ensures r.Ok? <==> forall i :: 0 <= i < |hs| ==> ProjectHorizon(price, hs[i], s, m).Ok?
    ensures r.Ok? ==> |r.value| == |hs|
    ensures r.Ok? ==> forall i :: 0 <= i < |hs| ==> ProjectHorizon(price, hs[i], s, m) == Ok(r.value[i])
    ensures r.Err? ==>
              exists i :: 0 <= i < |hs| && ProjectHorizon(price, hs[i], s, m) == Err(r.error)
                && forall j :: 0 <= j < i ==> ProjectHorizon(price, hs[j], s, m).Ok?
  {
    var rs := seq(|hs|, i requires 0 <= i < |hs| => ProjectHorizon(price, hs[i], s, m));
    assert forall i :: 0 <= i < |hs| ==> rs[i] == ProjectHorizon(price, hs[i], s, m);
    FirstError(rs)
  }

  /** The forecast loop of `main` over the six horizons. */
  function ForecastRows(price: real, s: Scales, m: Math): (r: Result<seq<ForecastRow>, AnalysisError>)
    ensures r.Ok? ==> |r.value| == |Horizons|
    ensures r.Ok? ==> forall i :: 0 <= i < |Horizons| ==> r.value[i].horizon == Horizons[i].name
    ensures r.Err? ==> r.error == MathDomain || r.error == MathRange
  {
    ProjectAll(price, Horizons, s, m)
  }

  /** The table's labels, step counts and scales. */
  lemma HorizonTable()
    ensures |Horizons| == 6
    ensures forall i :: 0 <= i < 4 ==> Horizons[i].scale == Minute
    ensures Horizons[4].scale == Quarter && Horizons[5].scale == Hour
    ensures seq(6, i requires 0 <= i < 6 => Horizons[i].name) == ["1m", "5m", "15m", "30m", "1h", "12h"]
    ensures seq(6, i requires 0 <= i < 6 => Horizons[i].steps) == [1, 5, 15, 30, 4, 12]
  {
  }

  /** A successful forecast has one entry per table row, in table order, each projected
      with its row's step count and its scale's estimate. */
  lemma ForecastFollowsTable(price: real, s: Scales, m: Math)
    requires ForecastRows(price, s, m).Ok?
    ensures var f := ForecastRows(price, s, m).value;
            && |f| == 6
            && seq(6, i requires 0 <= i < 6 => f[i].horizon) == ["1m", "5m", "15m", "30m", "1h", "12h"]
            && forall i :: 0 <= i < 6 ==>
                 match EstimateFor(s, Horizons[i].scale)
                 case Undefined => f[i].band.None?
                 case Estimate(mu, sigma) =>
                   f[i].band == Some(ProjectPrice(price, mu, sigma, Horizons[i].steps, m).value)
  {
    var f := ForecastRows(price, s, m).value;
    HorizonTable();
    forall i | 0 <= i < 6
      ensures f[i].horizon == Horizons[i].name
    {
      assert ProjectHorizon(price, Horizons[i], s, m) == Ok(f[i]);
    }
  }

  /** The forecast raises exactly when the price is not positive or some horizon's
      projection does not fit: mu ≤ -1 (a `math.log` argument that is not positive) or
      an exponent beyond exp's range. A non-positive price is reported by the first
      row, as a domain error. */
  lemma ForecastOkIff(price: real, s: Scales, m: Math)
    ensures ForecastRows(price, s, m).Ok? <==>
              0.0 < price && forall i :: 0 <= i < |Horizons| ==> HorizonFits(price, Horizons[i], s, m)
    ensures ForecastRows(price, s, m).Ok? ==>
              && (s.m1.Estimate? ==> -1.0 < s.m1.mu)
              && (s.m15.Estimate? ==> -1.0 < s.m15.mu)
              && (s.h1.Estimate? ==> -1.0 < s.h1.mu)
    ensures price <= 0.0 ==> ForecastRows(price, s, m) == Err(MathDomain)
  {
    HorizonTable();
    assert EstimateFor(s, Horizons[0].scale) == s.m1;
    assert EstimateFor(s, Horizons[4].scale) == s.m15;
    assert EstimateFor(s, Horizons[5].scale) == s.h1;
    if ForecastRows(price, s, m).Ok? {
      assert HorizonFits(price, Horizons[0], s, m);
      assert HorizonFits(price, Horizons[4], s, m);
      assert HorizonFits(price, Horizons[5], s, m);
    }
  }

  /** With positive closes, the last of which is the price, every estimate exists and
      no `math.log` argument is non-positive: the only error left is an exponent beyond
      exp's range. */
  lemma PositivePricesForecast(close: seq<real>, m: Math)
    requires 2 <= |close|
    requires forall i :: 0 <= i < |close| ==> 0.0 < close[i]
    ensures EstimateScales(close, m).Ok?
    ensures var f := ForecastRows(close[|close| - 1], EstimateScales(close, m).value, m);
            f.Err? ==> f.error == MathRange
  {
    ScalesOfPositivePrices(close, m);
    var s := EstimateScales(close, m).value;
    var price := close[|close| - 1];
    var f := ForecastRows(price, s, m);
    if f.Err? {
      var i :| 0 <= i < |Horizons| && ProjectHorizon(price, Horizons[i], s, m) == Err(f.error);
      assert EstimateFor(s, Horizons[i].scale).Estimate?;
    }
  }

  /** A projected band is ordered, lo ≤ mid ≤ hi, when its volatility is
      non-negative, exp is monotone and the square root non-negative. */
  lemma HorizonBandOrdered(price: real, h: Horizon, s: Scales, m: Math)
    requires SqrtNonNegative(m) && ExpMonotone(m)
    requires EstimateFor(s, h.scale).Estimate? ==> 0.0 <= EstimateFor(s, h.scale).sigma
    requires ProjectHorizon(price, h, s, m).Ok?
    ensures var b := ProjectHorizon(price, h, s, m).value.band;
            b.Some? ==> b.value.lo <= b.value.mid <= b.value.hi
  {
    var e := EstimateFor(s, h.scale);
    if e.Estimate? {
      BandOrdered(price, e.mu, e.sigma, h.steps, m);
    }
  }

  ghost predicate VolatilitiesNonNegative(s: Scales)
  {
    && (s.m1.Estimate? ==> 0.0 <= s.m1.sigma)
    && (s.m15.Estimate? ==> 0.0 <= s.m15.sigma)
    && (s.h1.Estimate? ==> 0.0 <= s.h1.sigma)
  }

  lemma BandsOrdered(price: real, s: Scales, m: Math)
    requires SqrtNonNegative(m) && ExpMonotone(m) && VolatilitiesNonNegative(s)
    requires ForecastRows(price, s, m).Ok?
    ensures var f := ForecastRows(price, s, m).value;
            forall i :: 0 <= i < |f| && f[i].band.Some? ==>
              f[i].band.value.lo <= f[i].band.value.mid <= f[i].band.value.hi
  {
    ProjectedBandsOrdered(price, Horizons, s, m);
  }

  /** BandsOrdered for any list of horizons. */
  lemma ProjectedBandsOrdered(price: real, hs: seq<Horizon>, s: Scales, m: Math)
    requires SqrtNonNegative(m) && ExpMonotone(m) && VolatilitiesNonNegative(s)
    requires ProjectAll(price, hs, s, m).Ok?
    ensures var f := ProjectAll(price, hs, s, m).value;
            forall i :: 0 <= i < |f| && f[i].band.Some? ==>
              f[i].band.value.lo <= f[i].band.value.mid <= f[i].band.value.hi
  {
    var f := ProjectAll(price, hs, s, m).value;
    forall i | 0 <= i < |f|
      ensures f[i].band.Some? ==> f[i].band.value.lo <= f[i].band.value.mid <= f[i].band.value.hi
    {
      var r := ProjectHorizon(price, hs[i], s, m);
      assert r == Ok(f[i]);
      ScaleVolatility(s, hs[i].scale);
      HorizonBandOrdered(price, hs[i], s, m);
    }
  }

  lemma ScaleVolatility(s: Scales, sc: Scale)
    requires VolatilitiesNonNegative(s)
    ensures EstimateFor(s, sc).Estimate? ==> 0.0 <= EstimateFor(s, sc).sigma
  {
  }

  /** Every band of the forecast is ordered, lo ≤ mid ≤ hi, for a monotone exp and a
      lawful square root. */
  lemma ForecastBandsOrdered(close: seq<real>, m: Math)
    requires 0 < |close| && SqrtLaw(m) && ExpMonotone(m)
    ensures var r := ForecastRows(close[|close| - 1], EstimateScales(close, m).value, m);
            r.Ok? ==>
              forall i :: 0 <= i < |r.value| && r.value[i].band.Some? ==>
                r.value[i].band.value.lo <= r.value[i].band.value.mid <= r.value[i].band.value.hi
  {
    ScalesVolatility(close, m);
    SqrtLawNonNegative(m);
    if ForecastRows(close[|close| - 1], EstimateScales(close, m).value, m).Ok? {
      BandsOrdered(close[|close| - 1], EstimateScales(close, m).value, m);
    }
  }

  /** With zero volatility at every scale, every band of the forecast collapses onto
      its point estimate. */
  lemma ZeroVolatilityForecast(price: real, s: Scales, m: Math)
    requires s.m1.Estimate? ==> s.m1.sigma == 0.0
    requires s.m15.Estimate? ==> s.m15.sigma == 0.0
    requires s.h1.Estimate? ==> s.h1.sigma == 0.0
    requires ForecastRows(price, s, m).Ok?
    ensures var f := ForecastRows(price, s, m).value;
            forall i :: 0 <= i < |f| && f[i].band.Some? ==>
              f[i].band.value.lo == f[i].band.value.mid == f[i].band.value.hi
  {
    ProjectedBandsCollapse(price, Horizons, s, m);
  }

  /** ZeroVolatilityForecast for any list of horizons. */
  lemma ProjectedBandsCollapse(price: real, hs: seq<Horizon>, s: Scales, m: Math)
    requires s.m1.Estimate? ==> s.m1.sigma == 0.0
    requires s.m15.Estimate? ==> s.m15.sigma == 0.0
    requires s.h1.Estimate? ==> s.h1.sigma == 0.0
    requires ProjectAll(price, hs, s, m).Ok?
    ensures var f := ProjectAll(price, hs, s, m).value;
            forall i :: 0 <= i < |f| && f[i].band.Some? ==>
              f[i].band.value.lo == f[i].band.value.mid == f[i].band.value.hi
  {
    var f := ProjectAll(price, hs, s, m).value;
    forall i | 0 <= i < |f| && f[i].band.Some?
      ensures f[i].band.value.lo == f[i].band.value.mid == f[i].band.value.hi
    {
      assert ProjectHorizon(price, hs[i], s, m) == Ok(f[i]);
      HorizonCollapses(price, hs[i], s, m);
    }
  }

  /** One horizon of the previous lemma: a zero volatility collapses its band. */
  lemma HorizonCollapses(price: real, h: Horizon, s: Scales, m: Math)
    requires EstimateFor(s, h.scale).Estimate? ==> EstimateFor(s, h.scale).sigma == 0.0
    requires ProjectHorizon(price, h, s, m).Ok?
    ensures var b := ProjectHorizon(price, h, s, m).value.band;
            b.Some? ==> b.value.lo == b.value.mid == b.value.hi
  {
    var e := EstimateFor(s, h.scale);
    if e.Estimate? {
      ZeroSigmaCollapses(price, e.mu, h.steps, m);
    }
  }
}
