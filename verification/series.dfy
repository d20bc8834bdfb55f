/** Numeric columns with missing values, and the positional pandas operations the
    analysis applies to them: `diff`, `shift(1)`, `rolling(w).mean()`, `dropna()`
    and a row-wise `max` that skips missing values. */
module Series {
  import opened Wrappers

  /** A pandas Series of floats; `None` is NaN. */
  type Column = seq<Option<real>>

  function Sum(xs: seq<real>): real
  {
    if |xs| == 0 then 0.0 else Sum(xs[..|xs| - 1]) + xs[|xs| - 1]
  }

  function Abs(x: real): (r: real)
    ensures 0.0 <= r && (r == x || r == -x)
  {
    if x < 0.0 then -x else x
  }

  /** A column with no missing value. */
  function Lift(xs: seq<real>): (r: Column)
    ensures |r| == |xs|
    ensures forall i :: 0 <= i < |xs| ==> r[i] == Some(xs[i])
  {
    seq(|xs|, i requires 0 <= i < |xs| => Some(xs[i]))
  }

  /** `k` missing values. */
  function Missing(k: nat): (r: Column)
    ensures |r| == k
    ensures forall i :: 0 <= i < k ==> r[i].None?
  {
    seq(k, i => None)
  }

  predicate AllDefined(xs: Column)
  {
    forall i :: 0 <= i < |xs| ==> xs[i].Some?
  }

  /** Every defined entry is non-negative. */
  predicate NonNegative(xs: Column)
  {
    forall i :: 0 <= i < |xs| && xs[i].Some? ==> 0.0 <= xs[i].value
  }

  function Values(xs: Column): (r: seq<real>)
    requires AllDefined(xs)
    ensures |r| == |xs|
    ensures forall i :: 0 <= i < |xs| ==> xs[i] == Some(r[i])
  {
    seq(|xs|, i requires 0 <= i < |xs| => xs[i].value)
  }

  /** `xs.diff()`: the first entry is missing, then each entry minus its predecessor. */
  function Diff(xs: seq<real>): (r: Column)
    ensures |r| == |xs|
  {
    seq(|xs|, i requires 0 <= i < |xs| => if i == 0 then None else Some(xs[i] - xs[i - 1]))
  }

  /** `xs.shift(1)`: the first entry is missing, then each entry is its predecessor. */
  function Shift(xs: seq<real>): (r: Column)
    ensures |r| == |xs|
  {
    seq(|xs|, i requires 0 <= i < |xs| => if i == 0 then None else Some(xs[i - 1]))
  }

  /** The mean over the `w` entries ending at index `i`: missing when fewer than `w`
      entries exist or one of them is missing (`min_periods` defaults to `w`). */
  function WindowMean(xs: Column, w: nat, i: nat): Option<real>
    requires 1 <= w && i < |xs|
  {
    if i + 1 < w then None
    else
      var win := xs[i + 1 - w .. i + 1];
      if AllDefined(win) then Some(Sum(Values(win)) / w as real) else None
  }

  /** `xs.rolling(w).mean()`. */
  function RollingMean(xs: Column, w: nat): (r: Column)
    requires 1 <= w
    ensures |r| == |xs|
  {
    seq(|xs|, i requires 0 <= i < |xs| => WindowMean(xs, w, i))
  }

  /** `xs.dropna()`: the defined entries, in order. */
  function DropMissing(xs: Column): (r: seq<real>)
    ensures |r| <= |xs|
  {
    if |xs| == 0 then []
    else DropMissing(xs[..|xs| - 1]) + (if xs[|xs| - 1].Some? then [xs[|xs| - 1].value] else [])
  }

  /** A row-wise `max(axis=1)` with pandas' default `skipna=True`: the largest defined
      entry, or missing when every entry is missing. */
  function MaxSkipMissing(xs: Column): (r: Option<real>)
    ensures r.None? <==> forall k :: 0 <= k < |xs| ==> xs[k].None?
    ensures r.Some? ==> forall k :: 0 <= k < |xs| && xs[k].Some? ==> xs[k].value <= r.value
    ensures r.Some? ==> exists k :: 0 <= k < |xs| && xs[k] == r
  {
    if |xs| == 0 then None
    else
      var rest := MaxSkipMissing(xs[1..]);
      assert forall k :: 1 <= k < |xs| ==> xs[k] == xs[1..][k - 1];
      match xs[0]
      case None => rest
      case Some(v) => if rest.Some? && rest.value > v then rest else Some(v)
  }

  // ---------------------------------------------------------------------------
  // Sums and window means

  lemma {:induction false} SumBounds(xs: seq<real>, lo: real, hi: real)
    requires forall k :: 0 <= k < |xs| ==> lo <= xs[k] <= hi
    ensures lo * |xs| as real <= Sum(xs) <= hi * |xs| as real
    decreases |xs|
  {
    if |xs| > 0 {
      SumBounds(xs[..|xs| - 1], lo, hi);
    }
  }

  /** A sum of non-negative terms is zero exactly when every term is zero. */
  lemma {:induction false} SumZeroIff(xs: seq<real>)
    requires forall k :: 0 <= k < |xs| ==> 0.0 <= xs[k]
    ensures Sum(xs) == 0.0 <==> forall k :: 0 <= k < |xs| ==> xs[k] == 0.0
    decreases |xs|
  {
    if |xs| > 0 {
      var init := xs[..|xs| - 1];
      assert forall k :: 0 <= k < |init| ==> init[k] == xs[k];
      SumZeroIff(init);
      NonNegativeSum(init);
    }
  }

  lemma {:induction false} NonNegativeSum(xs: seq<real>)
    requires forall k :: 0 <= k < |xs| ==> 0.0 <= xs[k]
    ensures 0.0 <= Sum(xs)
    decreases |xs|
  {
    if |xs| > 0 {
      NonNegativeSum(xs[..|xs| - 1]);
    }
  }

  /** Row `i` of a rolling mean is the mean of the window ending at row `i`. */
  lemma RollingMeanAt(xs: Column, w: nat, i: nat)
    requires 1 <= w && i < |xs|
    ensures RollingMean(xs, w)[i] == WindowMean(xs, w, i)
  {
  }

  /** A full window whose entries are all defined, with values `vs`, has mean
      Sum(vs) / w. */
  lemma WindowMeanOfValues(xs: Column, w: nat, i: nat, vs: seq<real>)
    requires 1 <= w <= i + 1 && i < |xs| && |vs| == w
    requires forall k :: 0 <= k < w ==> xs[i + 1 - w + k] == Some(vs[k])
    ensures RollingMean(xs, w)[i] == Some(Sum(vs) / w as real)
  {
    RollingMeanAt(xs, w, i);
    var win := xs[i + 1 - w .. i + 1];
    assert forall k :: 0 <= k < w ==> win[k] == Some(vs[k]);
    assert AllDefined(win);
    assert Values(win) == vs;
  }

  /** On a column with no missing entry, the window ending at row `i` has a mean exactly
      when it is full. */
  lemma WindowOfDefined(xs: Column, w: nat, i: nat)
    requires 1 <= w && i < |xs| && AllDefined(xs)
    ensures RollingMean(xs, w)[i].Some? <==> w <= i + 1
  {
    RollingMeanAt(xs, w, i);
    if w <= i + 1 {
      var win := xs[i + 1 - w .. i + 1];
      assert forall k :: 0 <= k < |win| ==> win[k] == xs[i + 1 - w + k];
      assert AllDefined(win);
    }
  }

  /** One row of the next lemma: the window ending at row `i` is complete and free
      of row 0 exactly when w <= i. */
  lemma WindowAfterLeadingMissing(xs: Column, w: nat, i: nat)
    requires 1 <= w && i < |xs| && xs[0].None?
    requires forall k :: 0 < k < |xs| ==> xs[k].Some?
    ensures WindowMean(xs, w, i).Some? <==> w <= i
  {
    if w <= i {
      var win := xs[i + 1 - w .. i + 1];
      assert forall k :: 0 <= k < |win| ==> win[k] == xs[i + 1 - w + k];
      assert AllDefined(win);
    } else if w == i + 1 {
      var win := xs[i + 1 - w .. i + 1];
      assert win[0] == xs[0];
      assert !AllDefined(win);
    }
  }

  /** A column whose first entry alone is missing, as a first difference is: its
      rolling mean is defined exactly from row `w` on, since every earlier window is
      short or holds row 0. */
  lemma RollingMeanAfterLeadingMissing(xs: Column, w: nat)
    requires 1 <= w && 0 < |xs| && xs[0].None?
    requires forall k :: 0 < k < |xs| ==> xs[k].Some?
    ensures forall i :: 0 <= i < |xs| ==> (RollingMean(xs, w)[i].Some? <==> w <= i)
  {
    forall i | 0 <= i < |xs|
      ensures RollingMean(xs, w)[i].Some? <==> w <= i
    {
      RollingMeanAt(xs, w, i);
      WindowAfterLeadingMissing(xs, w, i);
    }
  }

  /** A rolling mean lies between any bounds of the entries in its window. */
  lemma RollingMeanBounds(xs: Column, w: nat, lo: real, hi: real)
    requires 1 <= w
    requires forall k :: 0 <= k < |xs| && xs[k].Some? ==> lo <= xs[k].value <= hi
    ensures forall i :: 0 <= i < |xs| && RollingMean(xs, w)[i].Some? ==>
              lo <= RollingMean(xs, w)[i].value <= hi
  {
    forall i | 0 <= i < |xs| && RollingMean(xs, w)[i].Some?
      ensures lo <= RollingMean(xs, w)[i].value <= hi
    {
      var win := xs[i + 1 - w .. i + 1];
      var vs := Values(win);
      assert forall k :: 0 <= k < |vs| ==> win[k] == xs[i + 1 - w + k];
      SumBounds(vs, lo, hi);
      MeanBetween(Sum(vs), w as real, lo, hi);
    }
  }

  lemma MeanBetween(s: real, n: real, lo: real, hi: real)
    requires 0.0 < n && lo * n <= s <= hi * n
    ensures lo <= s / n <= hi
  {
    var q := s / n;
    assert q * n == s;
    assert (q - lo) * n >= 0.0;
    assert (hi - q) * n >= 0.0;
  }

  /** Non-negative entries give non-negative rolling means. */
  lemma RollingMeanNonNegative(xs: Column, w: nat)
    requires 1 <= w && NonNegative(xs)
    ensures NonNegative(RollingMean(xs, w))
  {
    var r := RollingMean(xs, w);
    forall i | 0 <= i < |xs| && r[i].Some?
      ensures 0.0 <= r[i].value
    {
      var win := xs[i + 1 - w .. i + 1];
      var vs := Values(win);
      assert forall k :: 0 <= k < |vs| ==> win[k] == xs[i + 1 - w + k];
      NonNegativeSum(vs);
    }
  }

  // ---------------------------------------------------------------------------
  // Extremes

  function Min(xs: seq<real>): (r: real)
    requires 0 < |xs|
    ensures forall k :: 0 <= k < |xs| ==> r <= xs[k]
    ensures exists k :: 0 <= k < |xs| && xs[k] == r
  {
    if |xs| == 1 then xs[0]
    else
      var m := Min(xs[1..]);
      assert forall k :: 1 <= k < |xs| ==> xs[k] == xs[1..][k - 1];
      if xs[0] <= m then xs[0] else m
  }

  function Max(xs: seq<real>): (r: real)
    requires 0 < |xs|
    ensures forall k :: 0 <= k < |xs| ==> xs[k] <= r
    ensures exists k :: 0 <= k < |xs| && xs[k] == r
  {
    if |xs| == 1 then xs[0]
    else
      var m := Max(xs[1..]);
      assert forall k :: 1 <= k < |xs| ==> xs[k] == xs[1..][k - 1];
      if xs[0] >= m then xs[0] else m
  }

  // ---------------------------------------------------------------------------
  // Rolling means of a fully defined column

  /** The means of every run of `w` consecutive values, in order. */
  function WindowMeans(xs: seq<real>, w: nat): (r: seq<real>)
    requires 1 <= w <= |xs|
    ensures |r| == |xs| - w + 1
  {
    seq(|xs| - w + 1, j requires 0 <= j < |xs| - w + 1 => Sum(xs[j..j + w]) / w as real)
  }

  /** Row `i` of a rolling mean over lifted values: missing before the first full
      window, then the mean of the `w` values ending at `i`. */
  lemma LiftedWindow(xs: seq<real>, w: nat, i: nat)
    requires 1 <= w && i < |xs|
    ensures RollingMean(Lift(xs), w)[i] ==
              if i + 1 < w then None else Some(Sum(xs[i + 1 - w .. i + 1]) / w as real)
  {
    if w <= i + 1 {
      WindowMeanOfValues(Lift(xs), w, i, xs[i + 1 - w .. i + 1]);
    } else {
      RollingMeanAt(Lift(xs), w, i);
    }
  }

  /** On a column with no missing value, `rolling(w).mean()` is missing on the first
      w - 1 rows and then the mean of each window; with fewer than `w` rows it is
      missing throughout. */
  lemma RollingMeanOfDefined(xs: seq<real>, w: nat)
    requires 1 <= w
    ensures w <= |xs| ==> RollingMean(Lift(xs), w) == Missing(w - 1) + Lift(WindowMeans(xs, w))
    ensures |xs| < w ==> RollingMean(Lift(xs), w) == Missing(|xs|)
  {
    var l := Lift(xs);
    if w <= |xs| {
      var expected := Missing(w - 1) + Lift(WindowMeans(xs, w));
      forall i | 0 <= i < |xs|
        ensures RollingMean(l, w)[i] == expected[i]
      {
        LiftedWindow(xs, w, i);
      }
    }
  }

  lemma {:induction false} DropMissingOfMissing(k: nat)
    ensures DropMissing(Missing(k)) == []
  {
    if k > 0 {
      assert Missing(k)[..k - 1] == Missing(k - 1);
      DropMissingOfMissing(k - 1);
    }
  }

  /** `dropna()` removes a leading run of missing values and keeps the rest in order. */
  lemma {:induction false} DropMissingAfterMissing(k: nat, ys: seq<real>)
    ensures DropMissing(Missing(k) + Lift(ys)) == ys
    decreases |ys|
  {
    var xs := Missing(k) + Lift(ys);
    if |ys| == 0 {
      assert xs == Missing(k);
      DropMissingOfMissing(k);
    } else {
      var init := ys[..|ys| - 1];
      assert xs[..|xs| - 1] == Missing(k) + Lift(init);
      DropMissingAfterMissing(k, init);
      assert ys == init + [ys[|ys| - 1]];
    }
  }

  lemma {:induction false} SumPositive(xs: seq<real>)
    requires 0 < |xs|
    requires forall k :: 0 <= k < |xs| ==> 0.0 < xs[k]
    ensures 0.0 < Sum(xs)
    decreases |xs|
  {
    var init := xs[..|xs| - 1];
    assert forall k :: 0 <= k < |init| ==> init[k] == xs[k];
    if |init| == 0 {
      assert Sum(xs) == Sum(init) + xs[|xs| - 1];
    } else {
      SumPositive(init);
    }
  }

  /** A mean of positive values is positive. */
  lemma WindowMeansPositive(xs: seq<real>, w: nat)
    requires 1 <= w <= |xs|
    requires forall k :: 0 <= k < |xs| ==> 0.0 < xs[k]
    ensures forall j :: 0 <= j < |WindowMeans(xs, w)| ==> 0.0 < WindowMeans(xs, w)[j]
  {
    var means := WindowMeans(xs, w);
    forall j | 0 <= j < |means|
      ensures 0.0 < means[j]
    {
      var win := xs[j..j + w];
      assert forall k :: 0 <= k < |win| ==> win[k] == xs[j + k];
      SumPositive(win);
      assert means[j] == Sum(win) / w as real;
    }
  }
}
