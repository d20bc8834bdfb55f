/** `project_price` of analyze_and_publish.py: log-price as a random walk with per-step
    drift ln(1+mu) and per-step deviation sigma; over n steps the point estimate is
    exp(mean_log) and the one-sigma band is exp(mean_log ∓ sigma·√n). */
module Projection {
  import opened Wrappers
  import opened Numerics
  import opened Series

  /** `(mid, lo, hi)` */
  datatype Band = Band(mid: real, lo: real, hi: real)

  /** `mean_log = log(p0) + n·log(1 + mu)` */
  function MeanLog(p0: real, mu: real, n: nat, m: Math): real
  {
    m.ln(p0) + n as real * m.ln(1.0 + mu)
  }

  /** `stdev = sigma · n ** 0.5` */
  function StdevLog(sigma: real, n: nat, m: Math): real
  {
    sigma * m.sqrt(n as real)
  }

  /** `project_price(p0, mu, sigma, n)`: `math.log` raises for a non-positive argument,
      so p0 ≤ 0 or mu ≤ -1 is an error, even when n = 0. Then `math.exp` raises at the
      first of mid, lo, hi whose exponent is above `ExpLimit`. */
  function ProjectPrice(p0: real, mu: real, sigma: real, n: nat, m: Math): (r: Result<Band, AnalysisError>)
    ensures r.Ok? <==>
              && 0.0 < p0 && -1.0 < mu
              && MeanLog(p0, mu, n, m) + Abs(StdevLog(sigma, n, m)) <= ExpLimit
    ensures r.Err? ==> (r.error == MathDomain <==> p0 <= 0.0 || mu <= -1.0)
    ensures r.Err? ==> r.error == MathDomain || r.error == MathRange
  {
    if p0 <= 0.0 || 1.0 + mu <= 0.0 then Err(MathDomain)
    else
      var ml := MeanLog(p0, mu, n, m);
      var sd := StdevLog(sigma, n, m);
      if ml > ExpLimit || ml - sd > ExpLimit || ml + sd > ExpLimit then Err(MathRange)
      else Ok(Band(m.exp(ml), m.exp(ml - sd), m.exp(ml + sd)))
  }

  /** On the log scale the band is mean_log ∓ stdev with stdev ≥ 0, so for a monotone
      exp the price band is ordered: lo ≤ mid ≤ hi. */
  lemma BandOrdered(p0: real, mu: real, sigma: real, n: nat, m: Math)
    requires 0.0 <= sigma
    requires SqrtNonNegative(m) && ExpMonotone(m)
    ensures var ml, sd := MeanLog(p0, mu, n, m), StdevLog(sigma, n, m);
            0.0 <= sd && ml - sd <= ml <= ml + sd
    ensures var r := ProjectPrice(p0, mu, sigma, n, m);
            r.Ok? ==> r.value.lo <= r.value.mid <= r.value.hi
  {
    var ml, sd := MeanLog(p0, mu, n, m), StdevLog(sigma, n, m);
    assert 0.0 <= m.sqrt(n as real);
    MulNonNegative(sigma, m.sqrt(n as real));
    assert m.exp(ml - sd) <= m.exp(ml) <= m.exp(ml + sd);
  }

  /** Zero volatility collapses the band onto the point estimate, which then overflows
      only when mean_log itself is above the limit. */
  lemma ZeroSigmaCollapses(p0: real, mu: real, n: nat, m: Math)
    ensures var r := ProjectPrice(p0, mu, 0.0, n, m);
            r.Ok? <==> 0.0 < p0 && -1.0 < mu && MeanLog(p0, mu, n, m) <= ExpLimit
    ensures var r := ProjectPrice(p0, mu, 0.0, n, m);
            r.Ok? ==> r.value.lo == r.value.mid == r.value.hi
  {
    assert StdevLog(0.0, n, m) == 0.0;
  }

  /** Zero steps project the current price: mid = exp(log p0) = p0, and with a lawful
      square root (√0 = 0) the band is the single point p0, computed exactly when
      log p0 is within exp's range. */
  lemma ZeroStepsIsCurrentPrice(p0: real, mu: real, sigma: real, m: Math)
    requires ExpInvertsLn(m)
    ensures var r := ProjectPrice(p0, mu, sigma, 0, m);
            r.Ok? ==> r.value.mid == p0
    ensures var r := ProjectPrice(p0, mu, sigma, 0, m);
            SqrtLaw(m) ==>
              && (r.Ok? <==> 0.0 < p0 && -1.0 < mu && m.ln(p0) <= ExpLimit)
              && (r.Ok? ==> r.value == Band(p0, p0, p0))
  {
    assert MeanLog(p0, mu, 0, m) == m.ln(p0);
    if 0.0 < p0 {
      assert m.exp(m.ln(p0)) == p0;
    }
    if SqrtLaw(m) {
      assert StdevLog(sigma, 0, m) == 0.0;
    }
  }
}
