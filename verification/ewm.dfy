/** Exponentially weighted means: the textbook EMA recurrence, and pandas'
    `ewm(span, adjust=False).mean()` as the running state pandas keeps, including its
    treatment of missing values (`ignore_na=False`). The two agree on fully defined
    input, and leading missing values do not disturb pandas' result. */
module Ewm {
  import opened Wrappers
  import opened Series
  import opened Numerics

  /** pandas' smoothing factor for `ewm(span=span)`: 2/(span+1); pandas rejects span < 1. */
  function Alpha(span: nat): (a: real)
    requires 1 <= span
    ensures 0.0 < a <= 1.0
    ensures a == 1.0 <==> span == 1
  {
    var d := span as real + 1.0;
    assert (2.0 / d) * d == 2.0;
    2.0 / d
  }

  ghost predicate ValidAlpha(a: real)
  {
    0.0 < a <= 1.0
  }

  /** One step of the recurrence: the new input weighs `a`, the previous mean 1 - a. */
  function EmaStep(a: real, x: real, prev: real): real
  {
    a * x + (1.0 - a) * prev
  }

  /** The EMA recurrence with smoothing factor `a`, built one element at a time. */
  function EmaWith(s: seq<real>, a: real): (r: seq<real>)
    ensures |r| == |s|
    decreases |s|
  {
    if |s| == 0 then []
    else if |s| == 1 then [s[0]]
    else
      var p := EmaWith(s[..|s| - 1], a);
      p + [EmaStep(a, s[|s| - 1], p[|p| - 1])]
  }

  /** `ema(s, span)` of analyze_and_publish.py on a column with no missing value. */
  function Ema(s: seq<real>, span: nat): (r: seq<real>)
    requires 1 <= span
    ensures |r| == |s|
  {
    EmaWith(s, Alpha(span))
  }

  // ---------------------------------------------------------------------------
  // pandas' running state

  /** What pandas carries from row to row: the current weighted mean (missing until
      the first observation) and the weight of the old mean. */
  datatype EwmState = EwmState(weighted: Option<real>, oldWt: real)

  const Start: EwmState := EwmState(None, 1.0)

  /** pandas' update of the mean `w` by the observation `v` when the old mean weighs
      `ow` and the new observation `a`; an unchanged value is kept as is. */
  function Blend(w: real, v: real, ow: real, a: real): real
    requires 0.0 <= ow && 0.0 < a
  {
    if w != v then (ow * w + a * v) / (ow + a) else w
  }

  /** One row of pandas' `ewm(adjust=False)` loop. After an observation the old weight
      resets to 1; across a missing value it keeps decaying by (1 - a). */
  function EwmStep(st: EwmState, x: Option<real>, a: real): (r: EwmState)
    requires ValidAlpha(a) && 0.0 <= st.oldWt
    ensures 0.0 <= r.oldWt
    ensures r.weighted.Some? <==> st.weighted.Some? || x.Some?
  {
    if st.weighted.Some? then
      var ow := st.oldWt * (1.0 - a);
      MulNonNegative(st.oldWt, 1.0 - a);
      if x.Some? then
        EwmState(Some(Blend(st.weighted.value, x.value, ow, a)), 1.0)
      else
        EwmState(st.weighted, ow)
    else if x.Some? then
      EwmState(x, st.oldWt)
    else
      st
  }

  function EwmFold(xs: Column, a: real): (st: EwmState)
    requires ValidAlpha(a)
    ensures 0.0 <= st.oldWt
  {
    if |xs| == 0 then Start else EwmStep(EwmFold(xs[..|xs| - 1], a), xs[|xs| - 1], a)
  }

  /** `xs.ewm(alpha=a, adjust=False).mean()`: entry i is the state after rows 0..i. */
  function EwmMean(xs: Column, a: real): (r: Column)
    requires ValidAlpha(a)
    ensures |r| == |xs|
  {
    seq(|xs|, i requires 0 <= i < |xs| => EwmFold(xs[..i + 1], a).weighted)
  }

  // ---------------------------------------------------------------------------
  // The recurrence

  lemma EmaExtend(s: seq<real>, a: real, i: nat)
    requires i < |s|
    ensures EmaWith(s[..i + 1], a) == EmaWith(s[..i], a) +
              [if i == 0 then s[0] else EmaStep(a, s[i], EmaWith(s[..i], a)[i - 1])]
  {
    var t := s[..i + 1];
    assert t[..i] == s[..i];
    if i == 0 {
      assert t == [s[0]];
    } else {
      assert t[i] == s[i];
    }
  }

  lemma {:induction false} EmaPrefix(s: seq<real>, a: real, k: nat)
    requires k <= |s|
    ensures EmaWith(s[..k], a) == EmaWith(s, a)[..k]
    decreases |s|
  {
    if k < |s| {
      var init := s[..|s| - 1];
      assert s[..k] == init[..k];
      EmaPrefix(init, a, k);
      if |s| > 1 {
        assert EmaWith(s, a)[..k] == EmaWith(init, a)[..k];
      }
    } else {
      assert s[..k] == s;
    }
  }

  /** The EMA has the input's length, starts at the first input, and each later entry
      is a·s[i] + (1-a)·EMA[i-1]. */
  lemma {:induction false} EmaRecurrence(s: seq<real>, a: real)
    ensures |EmaWith(s, a)| == |s|
    ensures 0 < |s| ==> EmaWith(s, a)[0] == s[0]
    ensures forall i :: 0 < i < |s| ==>
              EmaWith(s, a)[i] == EmaStep(a, s[i], EmaWith(s, a)[i - 1])
    decreases |s|
  {
    if |s| > 1 {
      var init := s[..|s| - 1];
      EmaRecurrence(init, a);
      assert forall i :: 0 <= i < |init| ==> init[i] == s[i];
    }
  }

  /** `ema(s, span)`: same length as the input, EMA[0] = s[0] and
      EMA[i] = α·s[i] + (1-α)·EMA[i-1] with α = 2/(span+1). */
  lemma EmaDefinition(s: seq<real>, span: nat)
    requires 1 <= span
    ensures |Ema(s, span)| == |s|
    ensures 0 < |s| ==> Ema(s, span)[0] == s[0]
    ensures forall i :: 0 < i < |s| ==>
              Ema(s, span)[i] == Alpha(span) * s[i] + (1.0 - Alpha(span)) * Ema(s, span)[i - 1]
  {
    var a := Alpha(span);
    var e := Ema(s, span);
    EmaRecurrence(s, a);
    forall i | 0 < i < |s|
      ensures e[i] == a * s[i] + (1.0 - a) * e[i - 1]
    {
      assert e[i] == EmaStep(a, s[i], e[i - 1]);
    }
  }

  lemma ConvexStep(a: real, x: real, y: real, lo: real, hi: real)
    requires ValidAlpha(a) && lo <= x <= hi && lo <= y <= hi
    ensures lo <= a * x + (1.0 - a) * y <= hi
  {
    MulNonNegative(a, x - lo);
    MulNonNegative(1.0 - a, y - lo);
    MulNonNegative(a, hi - x);
    MulNonNegative(1.0 - a, hi - y);
  }

  /** Every EMA entry is a convex combination of inputs: bounds on the input bound the
      EMA. */
  lemma {:induction false} EmaBounded(s: seq<real>, a: real, lo: real, hi: real)
    requires ValidAlpha(a)
    requires forall k :: 0 <= k < |s| ==> lo <= s[k] <= hi
    ensures forall k :: 0 <= k < |s| ==> lo <= EmaWith(s, a)[k] <= hi
    decreases |s|
  {
    if |s| > 1 {
      var init := s[..|s| - 1];
      assert forall k :: 0 <= k < |init| ==> init[k] == s[k];
      EmaBounded(init, a, lo, hi);
      var p := EmaWith(init, a);
      ConvexStep(a, s[|s| - 1], p[|p| - 1], lo, hi);
      assert EmaWith(s, a)[|s| - 1] == EmaStep(a, s[|s| - 1], p[|p| - 1]);
    }
  }

  /** The EMA of a constant column is that constant. */
  lemma EmaOfConstant(s: seq<real>, span: nat, c: real)
    requires 1 <= span
    requires forall k :: 0 <= k < |s| ==> s[k] == c
    ensures forall k :: 0 <= k < |s| ==> Ema(s, span)[k] == c
  {
    EmaBounded(s, Alpha(span), c, c);
  }

  // ---------------------------------------------------------------------------
  // pandas' state agrees with the recurrence

  lemma {:induction false} EwmFoldOfDefined(s: seq<real>, a: real)
    requires ValidAlpha(a) && 0 < |s|
    ensures EwmFold(Lift(s), a) == EwmState(Some(EmaWith(s, a)[|s| - 1]), 1.0)
    decreases |s|
  {
    var xs := Lift(s);
    if |s| == 1 {
      assert xs[..0] == [];
      assert EwmFold(xs, a) == EwmStep(Start, Some(s[0]), a);
    } else {
      var init := s[..|s| - 1];
      assert xs[..|xs| - 1] == Lift(init);
      EwmFoldOfDefined(init, a);
      var p := EmaWith(init, a);
      var last := p[|p| - 1];
      assert EwmFold(xs, a) == EwmStep(EwmState(Some(last), 1.0), Some(s[|s| - 1]), a);
      StepAfterObservation(last, s[|s| - 1], a);
    }
  }

  /** After an observation the old weight is 1, so pandas' weighted update is exactly
      the EMA step. */
  lemma StepAfterObservation(w: real, v: real, a: real)
    requires ValidAlpha(a)
    ensures EwmStep(EwmState(Some(w), 1.0), Some(v), a) == EwmState(Some(EmaStep(a, v, w)), 1.0)
  {
    var ow := 1.0 * (1.0 - a);
    assert ow == 1.0 - a;
    BlendAfterObservation(w, v, a);
  }

  lemma BlendAfterObservation(w: real, v: real, a: real)
    requires ValidAlpha(a)
    ensures Blend(w, v, 1.0 - a, a) == EmaStep(a, v, w)
  {
    if w != v {
      var num := (1.0 - a) * w + a * v;
      assert (1.0 - a) + a == 1.0;
      assert num / 1.0 == num;
    } else {
      assert a * w + (1.0 - a) * w == w;
    }
  }

  /** On a column with no missing value, pandas' `ewm(adjust=False).mean()` is the EMA
      recurrence. */
  lemma EwmOfDefined(s: seq<real>, a: real)
    requires ValidAlpha(a)
    ensures EwmMean(Lift(s), a) == Lift(EmaWith(s, a))
  {
    forall i | 0 <= i < |s|
      ensures EwmMean(Lift(s), a)[i] == Some(EmaWith(s, a)[i])
    {
      EwmRowOfDefined(s, a, i);
    }
  }

  /** One row of the previous lemma. */
  lemma EwmRowOfDefined(s: seq<real>, a: real, i: nat)
    requires ValidAlpha(a) && i < |s|
    ensures EwmMean(Lift(s), a)[i] == Some(EmaWith(s, a)[i])
  {
    var l := Lift(s);
    assert EwmMean(l, a)[i] == EwmFold(l[..i + 1], a).weighted;
    assert l[..i + 1] == Lift(s[..i + 1]);
    EwmFoldOfDefined(s[..i + 1], a);
    EmaPrefix(s, a, i + 1);
    assert EmaWith(s, a)[..i + 1][i] == EmaWith(s, a)[i];
  }

  lemma {:induction false} EwmFoldSkipsLeadingMissing(ys: Column, a: real)
    requires ValidAlpha(a)
    ensures EwmFold([None] + ys, a) == EwmFold(ys, a)
    decreases |ys|
  {
    var xs := [None] + ys;
    if |ys| == 0 {
      assert xs[..0] == [];
    } else {
      assert xs[..|xs| - 1] == [None] + ys[..|ys| - 1];
      EwmFoldSkipsLeadingMissing(ys[..|ys| - 1], a);
    }
  }

  /** A leading missing value stays missing and leaves the rest of pandas' result as if
      the column started one row later. */
  lemma EwmLeadingMissing(ys: Column, a: real)
    requires ValidAlpha(a)
    ensures EwmMean([None] + ys, a) == [None] + EwmMean(ys, a)
  {
    var xs := [None] + ys;
    var first: Column := [None];
    assert xs[..1] == first;
    assert first[..0] == [];
    assert EwmFold(first, a) == EwmStep(EwmFold(first[..0], a), None, a) == Start;
    assert EwmMean(xs, a)[0] == None;
    forall j | 1 <= j < |xs|
      ensures EwmMean(xs, a)[j] == ([None] + EwmMean(ys, a))[j]
    {
      assert xs[..j + 1] == [None] + ys[..j];
      EwmFoldSkipsLeadingMissing(ys[..j], a);
    }
  }

  /** Behind one leading missing value, pandas' last mean over fully defined values is
      the last EMA entry. */
  lemma EwmLastAfterLeadingMissing(xs: seq<real>, a: real)
    requires ValidAlpha(a) && 0 < |xs|
    ensures EwmMean([None] + Lift(xs), a)[|xs|] == Some(EmaWith(xs, a)[|xs| - 1])
  {
    EwmLeadingMissing(Lift(xs), a);
    EwmRowOfDefined(xs, a, |xs| - 1);
  }

  /** pandas' mean is defined exactly from the first observed row onwards. */
  lemma {:induction false} EwmFoldDefinedIff(xs: Column, a: real)
    requires ValidAlpha(a)
    ensures EwmFold(xs, a).weighted.Some? <==> exists k :: 0 <= k < |xs| && xs[k].Some?
    decreases |xs|
  {
    if |xs| > 0 {
      var init := xs[..|xs| - 1];
      EwmFoldDefinedIff(init, a);
      assert forall k :: 0 <= k < |init| ==> init[k] == xs[k];
    }
  }

  // ---------------------------------------------------------------------------
  // The loop pandas runs

  /** pandas' pass over a column with no missing value: the running `(weighted,
      old_wt)` state is updated row by row and its mean read off after each row. The
      result is the EMA recurrence. */
  method ComputeEma(s: seq<real>, span: nat) returns (r: seq<real>)
    requires 1 <= span
    ensures r == Ema(s, span)
  {
    var a := Alpha(span);
    var xs := Lift(s);
    var st := Start;
    r := [];
    var i := 0;
    while i < |s|
      invariant 0 <= i <= |s|
      invariant st == EwmFold(xs[..i], a)
      invariant r == EmaWith(s[..i], a)
    {
      assert xs[..i + 1][..i] == xs[..i];
      st := EwmStep(st, xs[i], a);
      assert Lift(s[..i + 1]) == xs[..i + 1];
      EwmFoldOfDefined(s[..i + 1], a);
      EmaExtend(s, a, i);
      r := r + [st.weighted.value];
      i := i + 1;
    }
    assert s[..|s|] == s;
  }
}
