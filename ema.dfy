/** Exponential moving averages as pandas computes them with
    ewm(span=period, adjust=False): the first value is the first input, and
    each later value moves a fraction alpha = 2 / (period + 1) of the way from
    the previous average to the new input. */
module Ema {
  import opened Common

  function Alpha(period: nat): (a: real)
    requires period >= 1
    ensures 0.0 < a <= 1.0
  {
    2.0 / (period as real + 1.0)
  }

  /** The i-th value of the recursive average of xs with smoothing alpha. */
  function EwmAt(xs: seq<real>, alpha: real, i: nat): real
    requires i < |xs|
    decreases i
  {
    if i == 0 then xs[0] else alpha * xs[i] + (1.0 - alpha) * EwmAt(xs, alpha, i - 1)
  }

  /** A convex combination of two values at least lo is at least lo. */
  lemma ConvexLower(alpha: real, x: real, y: real, lo: real)
    requires 0.0 <= alpha <= 1.0 && lo <= x && lo <= y
    ensures lo <= alpha * x + (1.0 - alpha) * y
  {
    var dx, dy := x - lo, y - lo;
    assert alpha * dx >= 0.0 && (1.0 - alpha) * dy >= 0.0;
    assert alpha * x + (1.0 - alpha) * y - lo == alpha * dx + (1.0 - alpha) * dy;
  }

  lemma ConvexUpper(alpha: real, x: real, y: real, hi: real)
    requires 0.0 <= alpha <= 1.0 && x <= hi && y <= hi
    ensures alpha * x + (1.0 - alpha) * y <= hi
  {
    var dx, dy := hi - x, hi - y;
    assert alpha * dx >= 0.0 && (1.0 - alpha) * dy >= 0.0;
    assert hi - (alpha * x + (1.0 - alpha) * y) == alpha * dx + (1.0 - alpha) * dy;
  }

  /** The average never falls below a bound every input so far respects. */
  lemma {:induction false} EwmLowerBound(xs: seq<real>, alpha: real, i: nat, lo: real)
    requires i < |xs| && 0.0 <= alpha <= 1.0
    requires forall j :: 0 <= j <= i ==> lo <= xs[j]
    ensures lo <= EwmAt(xs, alpha, i)
    decreases i
  {
    if i > 0 {
      EwmLowerBound(xs, alpha, i - 1, lo);
      ConvexLower(alpha, xs[i], EwmAt(xs, alpha, i - 1), lo);
    }
  }

  /** The average never rises above a bound every input so far respects. */
  lemma {:induction false} EwmUpperBound(xs: seq<real>, alpha: real, i: nat, hi: real)
    requires i < |xs| && 0.0 <= alpha <= 1.0
    requires forall j :: 0 <= j <= i ==> xs[j] <= hi
    ensures EwmAt(xs, alpha, i) <= hi
    decreases i
  {
    if i > 0 {
      EwmUpperBound(xs, alpha, i - 1, hi);
      ConvexUpper(alpha, xs[i], EwmAt(xs, alpha, i - 1), hi);
    }
  }

  /** Only the inputs up to i matter for the i-th value. */
  lemma {:induction false} EwmPrefix(xs: seq<real>, ys: seq<real>, alpha: real, i: nat)
    requires i < |xs| && i < |ys|
    requires forall j :: 0 <= j <= i ==> xs[j] == ys[j]
    ensures EwmAt(xs, alpha, i) == EwmAt(ys, alpha, i)
    decreases i
  {
    if i > 0 {
      EwmPrefix(xs, ys, alpha, i - 1);
    }
  }

  /** EMA.calculate: all NaN when the series is shorter than the period,
      otherwise the adjust=False average at every position. */
  function Calculate(xs: seq<real>, period: nat): (r: seq<Option<real>>)
    requires period >= 1
    ensures |r| == |xs|
    ensures |xs| < period ==> forall i :: 0 <= i < |r| ==> r[i] == None
    ensures |xs| >= period ==> forall i :: 0 <= i < |r| ==> r[i] == Some(EwmAt(xs, Alpha(period), i))
  {
    if |xs| < period then seq(|xs|, i => None)
    else seq(|xs|, i requires 0 <= i < |xs| => Some(EwmAt(xs, Alpha(period), i)))
  }

  /** Every EMA value lies between the smallest and the largest input. */
  lemma EmaBetweenExtremes(xs: seq<real>, period: nat, i: nat, lo: real, hi: real)
    requires period >= 1 && i < |xs|
    requires forall j :: 0 <= j < |xs| ==> lo <= xs[j] <= hi
    ensures Calculate(xs, period)[i].Some? ==>
              lo <= Calculate(xs, period)[i].value <= hi
  {
    if |xs| >= period {
      EwmLowerBound(xs, Alpha(period), i, lo);
      EwmUpperBound(xs, Alpha(period), i, hi);
    }
  }

  /** The EMA of a constant series is that constant. */
  lemma EmaOfConstant(xs: seq<real>, period: nat, c: real, i: nat)
    requires period >= 1 && period <= |xs| && i < |xs|
    requires forall j :: 0 <= j < |xs| ==> xs[j] == c
    ensures Calculate(xs, period)[i] == Some(c)
  {
    EmaBetweenExtremes(xs, period, i, c, c);
  }

  /** A frame of price columns plus the ema_<period> columns, kept apart and
      keyed by period. */
  datatype PriceFrame = PriceFrame(columns: map<string, seq<real>>, emas: map<nat, seq<Option<real>>>)

  /** EMA.calculate_on_dataframe: a copy of df with one EMA column per period,
      computed from df[column]; a period listed twice is computed twice with
      the same result. Looking up a column df lacks is a KeyError. */
  method CalculateOnDataframe(df: PriceFrame, column: string, periods: seq<nat>)
    returns (result: PriceFrame)
    requires column in df.columns
    requires forall k :: 0 <= k < |periods| ==> periods[k] >= 1
    ensures result.columns == df.columns
    ensures result.emas.Keys == df.emas.Keys + set k | 0 <= k < |periods| :: periods[k]
    ensures forall k :: 0 <= k < |periods| ==>
              result.emas[periods[k]] == Calculate(df.columns[column], periods[k])
    ensures forall p :: p in df.emas && p !in periods ==> result.emas[p] == df.emas[p]
  {
    result := df;
    var n := 0;
    while n < |periods|
      invariant 0 <= n <= |periods|
      invariant result.columns == df.columns
      invariant result.emas.Keys == df.emas.Keys + set k | 0 <= k < n :: periods[k]
      invariant forall k :: 0 <= k < n ==>
                  result.emas[periods[k]] == Calculate(df.columns[column], periods[k])
      invariant forall p :: p in df.emas && p !in periods[..n] ==> result.emas[p] == df.emas[p]
    {
      var period := periods[n];
      result := result.(emas := result.emas[period := Calculate(df.columns[column], period)]);
      assert periods[..n + 1] == periods[..n] + [period];
      n := n + 1;
    }
    assert periods[..n] == periods;
  }

  datatype Trend = Uptrend | Downtrend | Sideways

  /** EMA.get_trend: up when price, fast and slow EMA are strictly stacked
      upwards, down when strictly stacked downwards, otherwise (or when either
      EMA is NaN) sideways. */
  function GetTrend(price: real, fast: Option<real>, slow: Option<real>): (t: Trend)
    ensures t == Uptrend <==> fast.Some? && slow.Some? && price > fast.value > slow.value
    ensures t == Downtrend <==> fast.Some? && slow.Some? && price < fast.value < slow.value
    ensures fast.None? || slow.None? ==> t == Sideways
  {
    if fast.None? || slow.None? then Sideways
    else if price > fast.value > slow.value then Uptrend
    else if price < fast.value < slow.value then Downtrend
    else Sideways
  }
}
