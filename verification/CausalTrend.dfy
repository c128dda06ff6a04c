/** The counterfactual arithmetic, over the reals: daily aggregation, the linear trend with its fit quality,
    the projected baseline and the impact figures. */
module CausalTrend {
  function Sum(s: seq<real>): real {
    if s == [] then 0.0 else Sum(s[..|s| - 1]) + s[|s| - 1]
  }

  function Mean(s: seq<real>): real
    requires s != []
  {
    Sum(s) / |s| as real
  }

  // ---- The least-squares line ------------------------------------------------------------------

  function Square(x: real): (r: real)
    ensures r >= 0.0
  {
    x * x
  }

  /** The squared distance of two series over their first n points. */
  function Distance(y: seq<real>, f: seq<real>, n: nat): real
    requires n <= |y| && n <= |f|
  {
    if n == 0 then 0.0 else Distance(y, f, n - 1) + Square(y[n - 1] - f[n - 1])
  }

  function Line(slope: real, intercept: real, n: nat): seq<real> {
    seq(n, i => slope * i as real + intercept)
  }

  function Constant(x: real, n: nat): seq<real> {
    seq(n, i => x)
  }

  function Minus(a: seq<real>, b: seq<real>): (r: seq<real>)
    requires |a| == |b|
    ensures |r| == |a|
  {
    seq(|a|, i requires 0 <= i < |a| => a[i] - b[i])
  }

  /** The inner product of the first n entries. */
  function Dot(a: seq<real>, b: seq<real>, n: nat): real
    requires n <= |a| && n <= |b|
  {
    if n == 0 then 0.0 else Dot(a, b, n - 1) + a[n - 1] * b[n - 1]
  }

  /** The normal equations of a degree-one fit: the residuals are orthogonal to 1, 1, 1, ... and to
      0, 1, 2, ... */
  predicate Fits(y: seq<real>, slope: real, intercept: real) {
    var n := |y|;
    var residuals := Minus(y, Line(slope, intercept, n));
    Dot(Line(0.0, 1.0, n), residuals, n) == 0.0 && Dot(Line(1.0, 0.0, n), residuals, n) == 0.0
  }

  lemma SquareOfSum(r: real, u: real, whole: real)
    requires whole == r + u
    ensures Square(whole) == Square(r) + 2.0 * (u * r) + Square(u)
  {
  }

  /** The distance from g, seen from f. */
  lemma {:induction false} DistanceExpands(y: seq<real>, f: seq<real>, g: seq<real>, n: nat)
    requires n <= |y| == |f| == |g|
    ensures Distance(y, g, n) == Distance(y, f, n) + 2.0 * Dot(Minus(f, g), Minus(y, f), n) + Distance(f, g, n)
  {
    if n > 0 {
      DistanceExpands(y, f, g, n - 1);
      SquareOfSum(Minus(y, f)[n - 1], Minus(f, g)[n - 1], y[n - 1] - g[n - 1]);
    }
  }

  /** At position i, u is p times x plus q times o. */
  predicate Combined(u: seq<real>, x: seq<real>, o: seq<real>, p: real, q: real, i: nat)
    requires i < |u| == |x| == |o|
  {
    u[i] == p * x[i] + q * o[i]
  }

  lemma DotOfPoint(p: real, q: real, x: real, o: real, r: real, u: real, xr: real, or: real, ur: real,
      xr': real, or': real, ur': real)
    requires u == p * x + q * o && ur == p * xr + q * or
    requires xr' == xr + x * r && or' == or + o * r && ur' == ur + u * r
    ensures ur' == p * xr' + q * or'
  {
  }

  lemma {:induction false} DotOfCombination(u: seq<real>, x: seq<real>, o: seq<real>, r: seq<real>, p: real,
      q: real, n: nat)
    requires n <= |u| == |x| == |o| == |r|
    requires forall i: nat :: i < n ==> Combined(u, x, o, p, q, i)
    ensures Dot(u, r, n) == p * Dot(x, r, n) + q * Dot(o, r, n)
  {
    if n > 0 {
      DotOfCombination(u, x, o, r, p, q, n - 1);
      assert Combined(u, x, o, p, q, n - 1);
      DotOfPoint(p, q, x[n - 1], o[n - 1], r[n - 1], u[n - 1], Dot(x, r, n - 1), Dot(o, r, n - 1), Dot(u, r, n - 1),
                 Dot(x, r, n), Dot(o, r, n), Dot(u, r, n));
    }
  }

  lemma DifferenceOfLines(u: seq<real>, x: seq<real>, o: seq<real>, a: real, b: real, c: real, d: real, p: real,
      q: real)
    requires |x| == |o| == |u| && x == Line(1.0, 0.0, |u|) && o == Line(0.0, 1.0, |u|)
    requires u == Minus(Line(a, b, |u|), Line(c, d, |u|)) && p == a - c && q == b - d
    ensures forall i: nat :: i < |u| ==> Combined(u, x, o, p, q, i)
  {
    forall i: nat | i < |u| ensures Combined(u, x, o, p, q, i) {
      var t := i as real;
      assert a * t - c * t == p * t && x[i] == t && o[i] == 1.0;
    }
  }

  lemma OrthogonalToCombination(u: seq<real>, x: seq<real>, o: seq<real>, r: seq<real>, p: real, q: real)
    requires |u| == |x| == |o| == |r|
    requires forall i: nat :: i < |u| ==> Combined(u, x, o, p, q, i)
    requires Dot(x, r, |r|) == 0.0 && Dot(o, r, |r|) == 0.0
    ensures Dot(u, r, |r|) == 0.0
  {
    DotOfCombination(u, x, o, r, p, q, |r|);
    assert p * 0.0 + q * 0.0 == 0.0;
  }

  /** The residuals of a fit are orthogonal to the difference of any two lines. */
  lemma ResidualsAreOrthogonal(y: seq<real>, a: real, b: real, c: real, d: real, u: seq<real>, r: seq<real>)
    requires Fits(y, a, b) && u == Minus(Line(a, b, |y|), Line(c, d, |y|)) && r == Minus(y, Line(a, b, |y|))
    ensures Dot(u, r, |y|) == 0.0
  {
    var x, o, p, q := Line(1.0, 0.0, |y|), Line(0.0, 1.0, |y|), a - c, b - d;
    DifferenceOfLines(u, x, o, a, b, c, d, p, q);
    OrthogonalToCombination(u, x, o, r, p, q);
  }

  lemma {:induction false} DistanceIsNonNegative(y: seq<real>, f: seq<real>, n: nat)
    requires n <= |y| && n <= |f|
    ensures Distance(y, f, n) >= 0.0
  {
    if n > 0 { DistanceIsNonNegative(y, f, n - 1); }
  }

  /** The distance from any line splits into the distance from the fitted line and the distance between the
      lines, so the fitted line is at least as near as any other. */
  lemma SumOfSquaresDecomposes(y: seq<real>, slope: real, intercept: real, c: real, d: real)
    requires Fits(y, slope, intercept)
    ensures var f, g := Line(slope, intercept, |y|), Line(c, d, |y|);
            && Distance(y, g, |y|) == Distance(y, f, |y|) + Distance(f, g, |y|)
            && Distance(y, f, |y|) <= Distance(y, g, |y|)
  {
    var f, g := Line(slope, intercept, |y|), Line(c, d, |y|);
    DistanceExpands(y, f, g, |y|);
    ResidualsAreOrthogonal(y, slope, intercept, c, d, Minus(f, g), Minus(y, f));
    DistanceIsNonNegative(f, g, |y|);
  }

  lemma {:induction false} FirstTwoPoints(f: seq<real>, g: seq<real>, n: nat)
    requires 2 <= n <= |f| && n <= |g|
    ensures Distance(f, g, n) >= Square(f[0] - g[0]) + Square(f[1] - g[1])
  {
    if n == 2 {
      assert Distance(f, g, 1) == Square(f[0] - g[0]);
    } else {
      FirstTwoPoints(f, g, n - 1);
    }
  }

  lemma ProductIsPositive(x: real, y: real, product: real)
    requires product == x * y && x > 0.0 && y > 0.0
    ensures product > 0.0
  {
  }

  lemma ZeroSquare(x: real)
    requires Square(x) <= 0.0
    ensures x == 0.0
  {
    if x > 0.0 {
      ProductIsPositive(x, x, Square(x));
    } else if x < 0.0 {
      ProductIsPositive(-x, -x, Square(x));
    }
  }

  /** Two or more points have at most one line that meets the normal equations. */
  lemma TheFitIsUnique(y: seq<real>, a: real, b: real, c: real, d: real)
    requires |y| >= 2 && Fits(y, a, b) && Fits(y, c, d)
    ensures a == c && b == d
  {
    var f, g := Line(a, b, |y|), Line(c, d, |y|);
    SumOfSquaresDecomposes(y, a, b, c, d);
    SumOfSquaresDecomposes(y, c, d, a, b);
    FirstTwoPoints(f, g, |y|);
    FirstTwoPoints(g, f, |y|);
    ZeroSquare(f[0] - g[0]);
    ZeroSquare(f[1] - g[1]);
    assert f[0] == b && g[0] == d && f[1] == a + b && g[1] == c + d;
  }

  // ---- The synthetic control -------------------------------------------------------------------

  function Clamp(x: real): real {
    if x >= 0.0 then x else 0.0
  }

  /** The trend, carried on for `days` days and cut at zero. */
  function Projection(slope: real, intercept: real, from: nat, days: nat): seq<real> {
    var trend := Line(slope, intercept, from + days);
    seq(days, k requires 0 <= k < days => Clamp(trend[from + k]))
  }

  function RSquared(residual: real, total: real): real {
    if total > 0.0 then 1.0 - residual / total else 0.0
  }

  /** The mean of no days is not a number, and then every projected day and the error are none either. */
  datatype Control = Control(post: seq<real>, rmse: real, r2: real) | NotANumber(days: nat)

  /** The mean squared distance from a fitted or constant series. */
  function MeanSquare(y: seq<real>, fitted: seq<real>): real
    requires y != [] && |fitted| == |y|
  {
    Distance(y, fitted, |y|) / |y| as real
  }

  /** The residual sum of squares of a line, and the total sum of squares around the mean. */
  function Residuals(y: seq<real>, slope: real, intercept: real): real {
    Distance(y, Line(slope, intercept, |y|), |y|)
  }

  function Total(y: seq<real>): real
    requires y != []
  {
    Distance(y, Constant(Mean(y), |y|), |y|)
  }

  lemma QuotientTimes(x: real, n: real)
    requires n > 0.0
    ensures x / n * n == x && (x >= 0.0 ==> x / n >= 0.0)
  {
  }

  lemma SmallerFactor(p: real, q: real, n: real)
    requires n > 0.0 && p * n <= q * n
    ensures p <= q
  {
    assert (q - p) * n >= 0.0;
  }

  lemma RSquaredIsAShare(residual: real, total: real)
    requires 0.0 <= residual <= total
    ensures 0.0 <= RSquared(residual, total) <= 1.0
    ensures total > 0.0 ==>
              (1.0 - RSquared(residual, total)) * total == residual &&
              RSquared(residual, total) * total == total - residual
  {
    if total > 0.0 {
      QuotientTimes(residual, total);
      SmallerFactor(residual / total, 1.0, total);
    }
  }

  /** The explained sum of squares: of the fitted line around the mean. */
  function Explained(y: seq<real>, slope: real, intercept: real): real
    requires y != []
  {
    Distance(Line(slope, intercept, |y|), Constant(Mean(y), |y|), |y|)
  }

  /** The total splits into residual and explained; R squared is the explained share and lies in [0, 1]. */
  lemma SharesAddUp(y: seq<real>, slope: real, intercept: real, residual: real, total: real)
    requires y != [] && Fits(y, slope, intercept)
    requires residual == Residuals(y, slope, intercept) && total == Total(y)
    ensures total == residual + Explained(y, slope, intercept)
    ensures 0.0 <= RSquared(residual, total) <= 1.0
    ensures total > 0.0 ==> RSquared(residual, total) * total == Explained(y, slope, intercept)
  {
    SumOfSquaresDecomposes(y, slope, intercept, 0.0, Mean(y));
    assert Line(0.0, Mean(y), |y|) == Constant(Mean(y), |y|);
    DistanceIsNonNegative(y, Line(slope, intercept, |y|), |y|);
    RSquaredIsAShare(residual, total);
  }

  /** Fit quality of the trend: the root of the mean squared residual, and R squared. `sqrt` is the library's square
      root; it is given no negative number. */
  method FitQuality(pre: seq<real>, slope: real, intercept: real, sqrt: real -> real) returns (rmse: real, r2: real)
    requires pre != [] && Fits(pre, slope, intercept)
    ensures MeanSquare(pre, Line(slope, intercept, |pre|)) >= 0.0
    ensures rmse == sqrt(MeanSquare(pre, Line(slope, intercept, |pre|)))
    ensures r2 == RSquared(Residuals(pre, slope, intercept), Total(pre))
    ensures 0.0 <= r2 <= 1.0
  {
    var n, mean, fitted := |pre|, Mean(pre), Line(slope, intercept, |pre|);
    var residual, total := 0.0, 0.0;
    for i := 0 to n
      invariant residual == Distance(pre, fitted, i)
      invariant total == Distance(pre, Constant(mean, n), i)
    {
      residual := residual + Square(pre[i] - fitted[i]);
      total := total + Square(pre[i] - mean);
    }
    SharesAddUp(pre, slope, intercept, residual, total);
    DistanceIsNonNegative(pre, fitted, n);
    QuotientTimes(residual, n as real);
    rmse, r2 := sqrt(residual / n as real), RSquared(residual, total);
  }

  method Project(slope: real, intercept: real, from: nat, days: nat) returns (post: seq<real>)
    ensures post == Projection(slope, intercept, from, days) && forall k :: 0 <= k < days ==> post[k] >= 0.0
  {
    post := [];
    var trend := Line(slope, intercept, from + days);
    for k := 0 to days
      invariant |post| == k && forall j :: 0 <= j < k ==> post[j] == Clamp(trend[from + j])
    {
      post := post + [Clamp(trend[from + k])];
    }
  }

  /** `slope` and `intercept` are what the degree-one fit of the pre-event series returns. */
  method BuildSyntheticControl(pre: seq<real>, postDays: nat, slope: real, intercept: real, sqrt: real -> real)
    returns (c: Control)
    requires |pre| > 3 ==> Fits(pre, slope, intercept)
    ensures c == NotANumber(postDays) <==> pre == []
    ensures pre != [] ==> c.Control? && |c.post| == postDays && 0.0 <= c.r2 <= 1.0
    ensures |pre| > 3 ==>
              && 0.0 <= MeanSquare(pre, Line(slope, intercept, |pre|))
              && c.rmse == sqrt(MeanSquare(pre, Line(slope, intercept, |pre|)))
              && c.r2 == RSquared(Residuals(pre, slope, intercept), Total(pre))
              && c.post == Projection(slope, intercept, |pre|, postDays)
              && forall k :: 0 <= k < postDays ==> c.post[k] >= 0.0
    ensures 0 < |pre| <= 3 ==>
              && 0.0 <= MeanSquare(pre, Constant(Mean(pre), |pre|))
              && c.rmse == sqrt(MeanSquare(pre, Constant(Mean(pre), |pre|)))
              && c.r2 == 0.0 && c.post == Constant(Mean(pre), postDays)
  {
    if pre == [] {
      c := NotANumber(postDays);
    } else if |pre| > 3 {
      var rmse, r2 := FitQuality(pre, slope, intercept, sqrt);
      var post := Project(slope, intercept, |pre|, postDays);
      c := Control(post, rmse, r2);
    } else {
      var n, mean, deviation := |pre|, Mean(pre), 0.0;
      for i := 0 to n
        invariant deviation == Distance(pre, Constant(mean, n), i)
      {
        deviation := deviation + Square(pre[i] - mean);
      }
      DistanceIsNonNegative(pre, Constant(mean, n), n);
      QuotientTimes(deviation, n as real);
      c := Control(Constant(mean, postDays), sqrt(deviation / n as real), 0.0);
    }
  }

  // ---- Impact figures --------------------------------------------------------------------------

  /** Without a day in common the two means are not numbers and the cumulative effect is zero; over a synthetic
      series that is none, no figure is a number. */
  datatype Impact =
    | Impact(average: real, cumulative: real, percentage: real)
    | NoDays
    | NotNumbers
    | InsufficientData

  function Percentage(effect: real, base: real): real {
    if base != 0.0 then effect / base * 100.0 else 0.0
  }

  /** Both series are cut to the shorter one; `observedBefore` is how many observations precede the event. */
  method EstimateImpact(observedBefore: nat, actualPost: seq<real>, control: Control)
    returns (r: Impact, actual: seq<real>, synthetic: seq<real>)
    ensures r == InsufficientData <==> observedBefore == 0 || actualPost == []
    ensures r == NoDays <==>
            observedBefore > 0 && actualPost != [] &&
            (control == NotANumber(0) || (control.Control? && control.post == []))
    ensures r == NotNumbers <==>
            observedBefore > 0 && actualPost != [] && control.NotANumber? && control.days > 0
    ensures r.Impact? ==>
              && control.Control? && actual <= actualPost && synthetic <= control.post
              && (|actual| == |synthetic| == |actualPost| || |actual| == |synthetic| == |control.post|)
              && |actual| > 0
              && r.average == Mean(Minus(actual, synthetic)) && r.cumulative == Sum(Minus(actual, synthetic))
              && r.percentage == Percentage(Mean(actual) - Mean(synthetic), Mean(synthetic))
  {
    actual, synthetic := [], [];
    if observedBefore == 0 || actualPost == [] { return InsufficientData, [], []; }
    match control {
      case NotANumber(days) => r := if days == 0 then NoDays else NotNumbers;
      case Control(post, _, _) =>
        var n := if |actualPost| < |post| then |actualPost| else |post|;
        actual, synthetic := actualPost[..n], post[..n];
        if n == 0 { return NoDays, actual, synthetic; }
        var effects := Minus(actual, synthetic);
        var base := Mean(synthetic);
        var percentage := if base != 0.0 then (Mean(actual) - base) / base * 100.0 else 0.0;
        r := Impact(Mean(effects), Sum(effects), percentage);
    }
  }

  lemma {:induction false} SumOfMinus(actual: seq<real>, synthetic: seq<real>)
    requires |actual| == |synthetic|
    ensures Sum(Minus(actual, synthetic)) == Sum(actual) - Sum(synthetic)
  {
    if actual != [] {
      var n := |actual| - 1;
      SumOfMinus(actual[..n], synthetic[..n]);
      assert Minus(actual, synthetic)[..n] == Minus(actual[..n], synthetic[..n]);
    }
  }

  lemma QuotientOfDifference(x: real, y: real, n: real)
    requires n > 0.0
    ensures (x - y) / n == x / n - y / n
  {
  }

  lemma PercentageOf(effect: real, base: real)
    requires base != 0.0
    ensures effect / base * 100.0 * base == 100.0 * effect
    ensures base > 0.0 ==> (effect / base * 100.0 > 0.0 <==> effect > 0.0) &&
                           (effect / base * 100.0 < 0.0 <==> effect < 0.0)
  {
    var q := effect / base;
    assert q * base == effect;
  }

  /** The average effect is the difference of the means and the cumulative effect that many times over; over
      a positive baseline the percentage has the sign of the effect, so the reported direction agrees. */
  lemma ImpactFiguresAgree(actual: seq<real>, synthetic: seq<real>, average: real)
    requires |actual| == |synthetic| > 0 && average == Mean(Minus(actual, synthetic))
    ensures average == Mean(actual) - Mean(synthetic)
    ensures Sum(Minus(actual, synthetic)) == average * |actual| as real
    ensures Mean(synthetic) > 0.0 ==>
              (Percentage(average, Mean(synthetic)) > 0.0 <==> average > 0.0) &&
              (Percentage(average, Mean(synthetic)) < 0.0 <==> average < 0.0)
    ensures Mean(synthetic) != 0.0 ==> Percentage(average, Mean(synthetic)) * Mean(synthetic) == 100.0 * average
  {
    SumOfMinus(actual, synthetic);
    QuotientOfDifference(Sum(actual), Sum(synthetic), |actual| as real);
    QuotientTimes(Sum(Minus(actual, synthetic)), |actual| as real);
    if Mean(synthetic) != 0.0 { PercentageOf(average, Mean(synthetic)); }
  }

  // ---- Daily series ----------------------------------------------------------------------------

  /** An observation; `time` in seconds. */
  datatype Obs = Obs(time: int, value: real)

  const SECONDS_PER_DAY: int := 86400

  /** The sum of the values whose key is `d`, and their number; `keys` gives each observation a day. */
  function DaySum(data: seq<Obs>, keys: Obs -> int, d: int): real {
    if data == [] then 0.0
    else DaySum(data[..|data| - 1], keys, d) + (if keys(data[|data| - 1]) == d then data[|data| - 1].value else 0.0)
  }

  function WindowSum(data: seq<Obs>, keys: Obs -> int, lo: int, hi: int): real {
    if data == [] then 0.0
    else
      var o := data[|data| - 1];
      WindowSum(data[..|data| - 1], keys, lo, hi) + (if lo <= keys(o) < hi then o.value else 0.0)
  }

  lemma {:induction false} EmptyWindow(data: seq<Obs>, keys: Obs -> int, lo: int, hi: int)
    requires hi <= lo
    ensures WindowSum(data, keys, lo, hi) == 0.0
  {
    if data != [] { EmptyWindow(data[..|data| - 1], keys, lo, hi); }
  }

  lemma {:induction false} WindowGrows(data: seq<Obs>, keys: Obs -> int, lo: int, hi: int)
    requires lo <= hi
    ensures WindowSum(data, keys, lo, hi + 1) == WindowSum(data, keys, lo, hi) + DaySum(data, keys, hi)
  {
    if data != [] { WindowGrows(data[..|data| - 1], keys, lo, hi); }
  }

  /** Day by day from `lo` on, the day sums add up to the window's sum: nothing is lost or counted twice. */
  lemma {:induction false} DaySumsAddUp(data: seq<Obs>, keys: Obs -> int, lo: int, days: seq<real>)
    requires forall k :: 0 <= k < |days| ==> days[k] == DaySum(data, keys, lo + k)
    ensures Sum(days) == WindowSum(data, keys, lo, lo + |days|)
  {
    if days == [] {
      EmptyWindow(data, keys, lo, lo);
    } else {
      var n := |days| - 1;
      DaySumsAddUp(data, keys, lo, days[..n]);
      WindowGrows(data, keys, lo, lo + n);
    }
  }

  /** The observations with their ages in place of their times; the clock is read anew for each of them. */
  function Aged(data: seq<Obs>, clock: seq<int>): seq<Obs>
    requires |clock| == |data|
  {
    seq(|data|, i requires 0 <= i < |data| => Obs(clock[i] - data[i].time, data[i].value))
  }

  /** Whole days of an age, as a floor. */
  function DaysOld(): Obs -> int {
    (o: Obs) => o.time / SECONDS_PER_DAY
  }

  /** Bucket j collects what is `lookback - 1 - j` days old when it is looked at; what lies outside the window is
      dropped. */
  method AggregateToDaily(data: seq<Obs>, lookback: nat, clock: seq<int>) returns (daily: array<real>)
    requires |clock| == |data|
    ensures fresh(daily) && daily.Length == lookback
    ensures forall j :: 0 <= j < lookback ==> daily[j] == DaySum(Aged(data, clock), DaysOld(), lookback - 1 - j)
  {
    daily := new real[lookback](_ => 0.0);
    ghost var aged := Aged(data, clock);
    for i := 0 to |data|
      invariant forall j :: 0 <= j < lookback ==> daily[j] == DaySum(aged[..i], DaysOld(), lookback - 1 - j)
    {
      assert aged[..i + 1][..i] == aged[..i];
      var daysAgo := (clock[i] - data[i].time) / SECONDS_PER_DAY;
      if 0 <= daysAgo < lookback {
        daily[lookback - daysAgo - 1] := daily[lookback - daysAgo - 1] + data[i].value;
      }
    }
    assert aged[..|data|] == aged;
  }

  function Reversed(s: seq<real>): seq<real> {
    seq(|s|, k requires 0 <= k < |s| => s[|s| - 1 - k])
  }

  lemma {:induction false} SumOfConcat(a: seq<real>, b: seq<real>)
    ensures Sum(a + b) == Sum(a) + Sum(b)
  {
    if b == [] {
      assert a + b == a;
    } else {
      assert (a + b)[..|a + b| - 1] == a + b[..|b| - 1];
      SumOfConcat(a, b[..|b| - 1]);
    }
  }

  lemma {:induction false} SumOfReversed(s: seq<real>)
    ensures Sum(Reversed(s)) == Sum(s)
  {
    if s != [] {
      var n := |s| - 1;
      SumOfReversed(s[..n]);
      assert Reversed(s) == [s[n]] + Reversed(s[..n]);
      SumOfConcat([s[n]], Reversed(s[..n]));
      assert [s[n]][..0] == [];
    }
  }

  /** The buckets together hold exactly the observations of the window. */
  lemma AggregationConserves(data: seq<Obs>, lookback: nat, clock: seq<int>, daily: seq<real>)
    requires |daily| == lookback && |clock| == |data|
    requires forall j :: 0 <= j < lookback ==> daily[j] == DaySum(Aged(data, clock), DaysOld(), lookback - 1 - j)
    ensures Sum(daily) == WindowSum(Aged(data, clock), DaysOld(), 0, lookback)
  {
    DaySumsAddUp(Aged(data, clock), DaysOld(), 0, Reversed(daily));
    SumOfReversed(daily);
  }

  // ---- The series of an event window -----------------------------------------------------------

  /** The calendar day of an observation. */
  function DayOf(): Obs -> int {
    (o: Obs) => o.time / SECONDS_PER_DAY
  }

  function Earliest(data: seq<Obs>): (t: int)
    requires data != []
    ensures forall o :: o in data ==> t <= o.time
    ensures exists o :: o in data && o.time == t
  {
    var last := data[|data| - 1];
    if |data| == 1 then last.time
    else
      var t := Earliest(data[..|data| - 1]);
      assert data == data[..|data| - 1] + [last];
      if last.time < t then last.time else t
  }

  function ValuesOn(data: seq<Obs>, day: int): seq<real> {
    if data == [] then []
    else
      var o := data[|data| - 1];
      ValuesOn(data[..|data| - 1], day) + (if DayOf()(o) == day then [o.value] else [])
  }

  /** The mean of a day's values, zero for a day without any. */
  function DayMean(data: seq<Obs>, day: int): real {
    if ValuesOn(data, day) == [] then 0.0 else Mean(ValuesOn(data, day))
  }

  /** The daily means of `window` days from the day of the earliest observation on. */
  method AggregateFromTuples(data: seq<Obs>, window: nat) returns (daily: seq<real>)
    ensures |daily| == window
    ensures forall k :: 0 <= k < window ==>
      daily[k] == if data == [] then 0.0 else DayMean(data, Earliest(data) / SECONDS_PER_DAY + k)
  {
    if data == [] { return seq(window, k => 0.0); }
    var first := Earliest(data) / SECONDS_PER_DAY;
    daily := [];
    for k := 0 to window
      invariant |daily| == k && forall j :: 0 <= j < k ==> daily[j] == DayMean(data, first + j)
    {
      var values := [];
      for i := 0 to |data|
        invariant values == ValuesOn(data[..i], first + k)
      {
        assert data[..i + 1][..i] == data[..i];
        if data[i].time / SECONDS_PER_DAY == first + k { values := values + [data[i].value]; }
      }
      assert data[..|data|] == data;
      daily := daily + [if values == [] then 0.0 else Mean(values)];
    }
  }

  lemma {:induction false} SumOfValuesOn(data: seq<Obs>, day: int)
    ensures Sum(ValuesOn(data, day)) == DaySum(data, DayOf(), day)
  {
    if data != [] {
      var front, o := data[..|data| - 1], data[|data| - 1];
      SumOfValuesOn(front, day);
      assert (ValuesOn(front, day) + [o.value])[..|ValuesOn(front, day)|] == ValuesOn(front, day);
      assert ValuesOn(front, day) + [] == ValuesOn(front, day);
    }
  }

  /** A day's mean, as often as the day has values. */
  function Weighted(data: seq<Obs>, day: int): real {
    DayMean(data, day) * |ValuesOn(data, day)| as real
  }

  lemma EmptySum()
    ensures Sum([]) == 0.0
  {
  }

  lemma MeanTimesLength(values: seq<real>)
    requires values != []
    ensures Mean(values) * |values| as real == Sum(values)
  {
    hide Sum;
    QuotientTimes(Sum(values), |values| as real);
  }

  lemma MeanTimesCount(data: seq<Obs>, day: int)
    ensures Weighted(data, day) == DaySum(data, DayOf(), day)
  {
    SumOfValuesOn(data, day);
    hide Sum, DaySum, ValuesOn;
    var values := ValuesOn(data, day);
    if values == [] {
      EmptySum();
    } else {
      MeanTimesLength(values);
    }
  }

  function Values(data: seq<Obs>): seq<real> {
    seq(|data|, k requires 0 <= k < |data| => data[k].value)
  }

  lemma {:induction false} WholeWindow(data: seq<Obs>, lo: int, hi: int)
    requires forall o :: o in data ==> lo <= DayOf()(o) < hi
    ensures WindowSum(data, DayOf(), lo, hi) == Sum(Values(data))
  {
    if data != [] {
      var n := |data| - 1;
      WholeWindow(data[..n], lo, hi);
      assert data[n] in data && Values(data)[..n] == Values(data[..n]);
    }
  }

  /** The daily means from the first day on, each weighted by the number of values behind it, add up to the
      window's total, and to that of all observations where the window reaches past the last of them. */
  lemma WeightedMeansAddUp(data: seq<Obs>, weighted: seq<real>, first: int)
    requires data != [] && first == Earliest(data) / SECONDS_PER_DAY
    requires forall k :: 0 <= k < |weighted| ==> weighted[k] == Weighted(data, first + k)
    ensures Sum(weighted) == WindowSum(data, DayOf(), first, first + |weighted|)
    ensures (forall o :: o in data ==> o.time / SECONDS_PER_DAY < first + |weighted|) ==>
            Sum(weighted) == Sum(Values(data))
  {
    hide Weighted, DaySum, WindowSum, Sum, Values;
    forall k | 0 <= k < |weighted| ensures weighted[k] == DaySum(data, DayOf(), first + k) {
      MeanTimesCount(data, first + k);
    }
    DaySumsAddUp(data, DayOf(), first, weighted);
    if forall o :: o in data ==> o.time / SECONDS_PER_DAY < first + |weighted| {
      WholeWindow(data, first, first + |weighted|);
    }
  }

  // ---- The projection by day -------------------------------------------------------------------

  function DayValue(slope: real, intercept: real, day: nat): real {
    slope * day as real + intercept
  }

  /** Day k after the window is the value of the line on that day, counted on from the window, and zero where that is
      negative. */
  lemma ProjectionContinuesTheTrend(slope: real, intercept: real, from: nat, days: nat, k: nat)
    requires k < days
    ensures |Projection(slope, intercept, from, days)| == days
    ensures Projection(slope, intercept, from, days)[k] ==
            var value := DayValue(slope, intercept, from + k); if value < 0.0 then 0.0 else value
  {
    var trend := Line(slope, intercept, from + days);
    assert Projection(slope, intercept, from, days)[k] == Clamp(trend[from + k]);
  }

  // ---- Figures without a base ------------------------------------------------------------------

  lemma {:induction false} NoValuesOn(data: seq<Obs>, day: int)
    requires forall o :: o in data ==> o.time / 86400 != day
    ensures ValuesOn(data, day) == []
  {
    if data != [] { NoValuesOn(data[..|data| - 1], day); }
  }

  /** A series that does not vary has no explained share, an effect on a zero baseline no percentage, and a day without
      observations is zero. */
  lemma NothingToDivideBy(residual: real, effect: real, data: seq<Obs>, day: int)
    ensures RSquared(residual, 0.0) == 0.0 && Percentage(effect, 0.0) == 0.0
    ensures (forall o :: o in data ==> o.time / 86400 != day) ==> DayMean(data, day) == 0.0
  {
    if forall o :: o in data ==> o.time / 86400 != day { NoValuesOn(data, day); }
  }

  /** An observation is as many days old as whole days fit between it and the reading of the clock. */
  lemma AgesAreWholeDays(data: seq<Obs>, clock: seq<int>, i: nat)
    requires |clock| == |data| && i < |data|
    ensures var days := DaysOld()(Aged(data, clock)[i]);
            data[i].time + days * 86400 <= clock[i] < data[i].time + (days + 1) * 86400
    ensures Aged(data, clock)[i].value == data[i].value
  {
  }
}
