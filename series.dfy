/** The pandas column operations the indicators are built from, over exact
    reals: a rolling mean whose window propagates NaN (`rolling(window).mean()`
    with the default `min_periods`), and the exponentially weighted mean
    `ewm(span, adjust=False).mean()`. */
module Series {
  import opened Options

  /** Sum of a sequence, accumulated from the left. */
  function Sum(xs: seq<real>): real
    decreases |xs|
  {
    if |xs| == 0 then 0.0 else Sum(xs[..|xs| - 1]) + xs[|xs| - 1]
  }

  /** A column without missing values. */
  function Lift(xs: seq<real>): (r: seq<Option<real>>)
    ensures |r| == |xs|
    ensures forall i :: 0 <= i < |xs| ==> r[i] == Some(xs[i])
  {
    seq(|xs|, i requires 0 <= i < |xs| => Some(xs[i]))
  }

  /** Sum of a window in which a single missing entry makes the sum missing. */
  function SumAvailable(xs: seq<Option<real>>): (r: Option<real>)
    ensures r.Some? <==> forall j :: 0 <= j < |xs| ==> xs[j].Some?
    decreases |xs|
  {
    if |xs| == 0 then Some(0.0)
    else
      match SumAvailable(xs[..|xs| - 1])
      case None => None
      case Some(s) => if xs[|xs| - 1].Some? then Some(s + xs[|xs| - 1].value) else None
  }

  /** Every entry of `xs` is present and lies in [lo, hi]. */
  predicate AllWithin(xs: seq<Option<real>>, lo: real, hi: real)
  {
    forall j :: 0 <= j < |xs| ==> xs[j].Some? && lo <= xs[j].value <= hi
  }

  lemma {:induction false} SumAvailableWithin(xs: seq<Option<real>>, lo: real, hi: real)
    requires AllWithin(xs, lo, hi)
    ensures SumAvailable(xs).Some?
    ensures lo * |xs| as real <= SumAvailable(xs).value <= hi * |xs| as real
    decreases |xs|
  {
    if |xs| > 0 {
      var init := xs[..|xs| - 1];
      assert AllWithin(init, lo, hi) by {
        forall j | 0 <= j < |init| ensures init[j].Some? && lo <= init[j].value <= hi {
          assert init[j] == xs[j];
        }
      }
      SumAvailableWithin(init, lo, hi);
      assert |init| as real + 1.0 == |xs| as real;
    }
  }

  lemma {:induction false} SumAvailableAtLeast(xs: seq<Option<real>>, lo: real)
    requires forall j :: 0 <= j < |xs| ==> xs[j].Some? && lo <= xs[j].value
    ensures SumAvailable(xs).Some?
    ensures lo * |xs| as real <= SumAvailable(xs).value
    decreases |xs|
  {
    if |xs| > 0 {
      var init := xs[..|xs| - 1];
      assert forall j :: 0 <= j < |init| ==> init[j] == xs[j];
      SumAvailableAtLeast(init, lo);
      assert |init| as real + 1.0 == |xs| as real;
    }
  }

  /** The mean of the `window` entries ending at row `i`, as pandas'
      `rolling(window).mean()` gives it: missing until the window is full,
      and missing whenever the window holds a missing entry. */
  function RollingMean(xs: seq<Option<real>>, window: nat, i: nat): (r: Option<real>)
    requires 1 <= window && i < |xs|
    ensures r.Some? <==> window <= i + 1 && forall j :: i + 1 - window <= j <= i ==> xs[j].Some?
  {
    if i + 1 < window then None
    else
      var w := xs[i + 1 - window .. i + 1];
      assert forall j :: i + 1 - window <= j <= i ==> xs[j] == w[j - (i + 1 - window)];
      match SumAvailable(w)
      case None => None
      case Some(s) => Some(s / window as real)
  }

  /** A rolling mean stays within the bounds of the values in its window. */
  lemma RollingMeanWithin(xs: seq<Option<real>>, window: nat, i: nat, lo: real, hi: real)
    requires 1 <= window <= i + 1 < |xs| + 1
    requires forall j :: i + 1 - window <= j <= i ==> xs[j].Some? && lo <= xs[j].value <= hi
    ensures RollingMean(xs, window, i).Some?
    ensures lo <= RollingMean(xs, window, i).value <= hi
  {
    var w := xs[i + 1 - window .. i + 1];
    assert AllWithin(w, lo, hi) by {
      forall j | 0 <= j < |w| ensures w[j].Some? && lo <= w[j].value <= hi {
        assert w[j] == xs[j + (i + 1 - window)];
      }
    }
    SumAvailableWithin(w, lo, hi);
    var s := SumAvailable(w).value;
    var n := window as real;
    assert lo * n <= s <= hi * n;
    assert RollingMean(xs, window, i) == Some(s / n);
    DivideWithin(s, n, lo, hi);
  }

  /** A rolling mean of values that are all at least `lo` is at least `lo`. */
  lemma RollingMeanAtLeast(xs: seq<Option<real>>, window: nat, i: nat, lo: real)
    requires 1 <= window && i < |xs|
    requires forall j :: 0 <= j < |xs| ==> xs[j].Some? ==> lo <= xs[j].value
    ensures RollingMean(xs, window, i).Some? ==> lo <= RollingMean(xs, window, i).value
  {
    if RollingMean(xs, window, i).Some? {
      var w := xs[i + 1 - window .. i + 1];
      forall j | 0 <= j < |w| ensures w[j].Some? && lo <= w[j].value {
        assert w[j] == xs[j + (i + 1 - window)];
      }
      SumAvailableAtLeast(w, lo);
      var s := SumAvailable(w).value;
      var n := window as real;
      assert RollingMean(xs, window, i) == Some(s / n);
      if s / n < lo {
        assert s / n * n == s;
        MulStrict(s / n, lo, n);
        assert false;
      }
    }
  }

  lemma DivideWithin(s: real, n: real, lo: real, hi: real)
    requires n > 0.0 && lo * n <= s <= hi * n
    ensures lo <= s / n <= hi
  {
    var q := s / n;
    assert q * n == s;
    if q < lo {
      MulStrict(q, lo, n);
      assert false;
    }
    if hi < q {
      MulStrict(hi, q, n);
      assert false;
    }
  }

  lemma MulStrict(x: real, y: real, c: real)
    requires x < y && c > 0.0
    ensures x * c < y * c
  {
  }

  /** The rolling mean of every row of a column. */
  function Rolling(xs: seq<Option<real>>, window: nat): (r: seq<Option<real>>)
    requires 1 <= window
    ensures |r| == |xs|
    ensures forall i :: 0 <= i < |xs| ==> r[i] == RollingMean(xs, window, i)
  {
    seq(|xs|, i requires 0 <= i < |xs| => RollingMean(xs, window, i))
  }

  /** The smoothing factor pandas derives from a span: 2 / (span + 1). */
  function Alpha(span: nat): (a: real)
    requires span >= 1
    ensures 0.0 < a <= 1.0
  {
    2.0 / (span as real + 1.0)
  }

  /** One smoothing step: move `avg` towards `x` by the fraction `a`. */
  function Blend(a: real, avg: real, x: real): real
  {
    (1.0 - a) * avg + a * x
  }

  /** `ewm(span, adjust=False).mean()`: the first value seeds the average,
      then each value moves it by the fraction Alpha(span). */
  function Ewm(xs: seq<real>, span: nat): (r: seq<real>)
    requires span >= 1
    ensures |r| == |xs|
    decreases |xs|
  {
    if |xs| <= 1 then xs
    else
      var prev := Ewm(xs[..|xs| - 1], span);
      prev + [Blend(Alpha(span), prev[|prev| - 1], xs[|xs| - 1])]
  }

  /** The average of a prefix does not depend on the values after it. */
  lemma {:induction false} EwmPrefix(xs: seq<real>, span: nat, k: nat)
    requires span >= 1 && k <= |xs|
    ensures Ewm(xs[..k], span) == Ewm(xs, span)[..k]
    decreases |xs|
  {
    if k < |xs| {
      var init := xs[..|xs| - 1];
      EwmPrefix(init, span, k);
      assert init[..k] == xs[..k];
      assert Ewm(xs, span)[..|xs| - 1] == Ewm(init, span);
    } else {
      assert xs[..k] == xs;
    }
  }

  /** The recurrence with `adjust=False`: seeded by the first value, then
      y[t] = (1 - a) * y[t-1] + a * x[t] with a = 2 / (span + 1). */
  lemma EwmRecurrence(xs: seq<real>, span: nat, t: nat)
    requires span >= 1 && t < |xs|
    ensures t == 0 ==> Ewm(xs, span)[0] == xs[0]
    ensures 0 < t ==>
      Ewm(xs, span)[t] == Blend(Alpha(span), Ewm(xs, span)[t - 1], xs[t])
  {
    var ys := Ewm(xs, span);
    var p := xs[..t + 1];
    EwmPrefix(xs, span, t + 1);
    assert ys[t] == Ewm(p, span)[t];
    if t == 0 {
      assert Ewm(p, span) == p;
    } else {
      var a := Alpha(span);
      EwmLast(p, span);
      assert p[..t] == xs[..t];
      EwmPrefix(xs, span, t);
      var prevAvg := Ewm(p[..t], span)[t - 1];
      assert prevAvg == ys[t - 1];
      assert p[t] == xs[t];
      assert Ewm(p, span)[t] == Blend(a, prevAvg, p[t]);
    }
  }

  lemma EwmLast(xs: seq<real>, span: nat)
    requires span >= 1 && |xs| > 1
    ensures Ewm(xs, span)[..|xs| - 1] == Ewm(xs[..|xs| - 1], span)
    ensures Ewm(xs, span)[|xs| - 1]
      == Blend(Alpha(span), Ewm(xs[..|xs| - 1], span)[|xs| - 2], xs[|xs| - 1])
  {
  }

  /** Each average is a convex combination of the values seen so far, so
      it stays within any bounds those values respect. */
  lemma {:induction false} EwmWithin(xs: seq<real>, span: nat, lo: real, hi: real)
    requires span >= 1
    requires forall j :: 0 <= j < |xs| ==> lo <= xs[j] <= hi
    ensures forall j :: 0 <= j < |xs| ==> lo <= Ewm(xs, span)[j] <= hi
    decreases |xs|
  {
    if |xs| > 1 {
      var init := xs[..|xs| - 1];
      EwmWithin(init, span, lo, hi);
      var prev := Ewm(init, span);
      var a := Alpha(span);
      var y := prev[|prev| - 1];
      var x := xs[|xs| - 1];
      assert lo <= y <= hi;
      ConvexWithin(y, x, a, lo, hi);
    }
  }

  lemma ConvexWithin(y: real, x: real, a: real, lo: real, hi: real)
    requires 0.0 < a <= 1.0 && lo <= y <= hi && lo <= x <= hi
    ensures lo <= Blend(a, y, x) <= hi
  {
    var e := (1.0 - a) * y + a * x;
    assert e - lo == (1.0 - a) * (y - lo) + a * (x - lo);
    assert (1.0 - a) * (y - lo) >= 0.0 by { MulNonneg(1.0 - a, y - lo); }
    assert a * (x - lo) >= 0.0 by { MulNonneg(a, x - lo); }
    assert hi - e == (1.0 - a) * (hi - y) + a * (hi - x);
    assert (1.0 - a) * (hi - y) >= 0.0 by { MulNonneg(1.0 - a, hi - y); }
    assert a * (hi - x) >= 0.0 by { MulNonneg(a, hi - x); }
  }

  lemma MulNonneg(u: real, v: real)
    requires u >= 0.0 && v >= 0.0
    ensures u * v >= 0.0
  {
  }
}
