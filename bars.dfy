/** Price bars and the per-bar indicator rows the funnel stages pass along,
    together with the small computations several stages share. */
module Bars {
  import opened Common

  /** One OHLCV bar. time is in minutes since the epoch, local exchange time. */
  datatype Candle = Candle(time: int, open: real, high: real, low: real, close: real, volume: real)

  /** A bar with the indicators attached by the live filter; None is NaN
      (warm-up of an average, or no volume yet for VWAP). */
  datatype Row = Row(bar: Candle, ema20: Option<real>, ema200: Option<real>,
                     vwap: Option<real>, atr: Option<real>)

  /** An intraday frame. indicatorColumns says whether the frame carries the
      ema_20, ema_200, vwap and atr columns at all. */
  datatype Frame = Frame(rows: seq<Row>, indicatorColumns: bool)

  /** The intraday trend the live filter tags a candidate with; a mixed
      trend is never passed on. */
  datatype Bias = Bullish | Bearish

  const MinutesPerDay: int := 1440

  /** The calendar day of a bar time. */
  function DayOf(time: int): int
  {
    time / MinutesPerDay
  }

  /** Minute of the day for hh:mm. */
  function ClockTime(hour: nat, minute: nat): int
  {
    hour * 60 + minute
  }

  /** A bar lies in [day at from, day at to], both ends included, as pandas
      label slicing df[from:to] on a time index. */
  predicate InWindow(c: Candle, day: int, from: int, to: int)
  {
    day * MinutesPerDay + from <= c.time <= day * MinutesPerDay + to
  }

  /** The bars of the window, in the order of the frame. */
  function Window(bars: seq<Candle>, day: int, from: int, to: int): (r: seq<Candle>)
    ensures |r| <= |bars|
    ensures forall i :: 0 <= i < |r| ==> InWindow(r[i], day, from, to) && r[i] in bars
    ensures forall c :: c in bars && InWindow(c, day, from, to) ==> c in r
    ensures IsSubsequence(r, bars)
  {
    if bars == [] then []
    else
      var rest := Window(bars[1..], day, from, to);
      if InWindow(bars[0], day, from, to) then
        assert ([bars[0]] + rest)[1..] == rest;
        [bars[0]] + rest
      else
        rest
  }

  /** The first bar of a window is the earliest bar of the frame that lies
      in the window. */
  lemma {:induction false} WindowStartsAtFirstMatch(bars: seq<Candle>, day: int, from: int, to: int)
    ensures var r := Window(bars, day, from, to);
            r != [] ==> exists k :: 0 <= k < |bars| && bars[k] == r[0] &&
                                   forall j :: 0 <= j < k ==> !InWindow(bars[j], day, from, to)
    decreases |bars|
  {
    if bars != [] && !InWindow(bars[0], day, from, to) {
      WindowStartsAtFirstMatch(bars[1..], day, from, to);
      WindowSkipsFirst(bars, Window(bars[1..], day, from, to), day, from, to);
    }
  }

  /** When the first bar is outside the window, what the rest of the frame
      yields keeps the first-bar property for the whole frame. */
  lemma WindowSkipsFirst(bars: seq<Candle>, rest: seq<Candle>, day: int, from: int, to: int)
    requires bars != [] && !InWindow(bars[0], day, from, to)
    requires rest != [] ==> InWindow(rest[0], day, from, to)
    requires rest != [] ==> exists k :: 0 <= k < |bars[1..]| && bars[1..][k] == rest[0] &&
                                        forall j :: 0 <= j < k ==> !InWindow(bars[1..][j], day, from, to)
    ensures rest != [] ==> exists k :: 0 <= k < |bars| && bars[k] == rest[0] &&
                                       forall j :: 0 <= j < k ==> !InWindow(bars[j], day, from, to)
  {
    if rest != [] {
      var k :| 0 <= k < |bars[1..]| && bars[1..][k] == rest[0] &&
               forall j :: 0 <= j < k ==> !InWindow(bars[1..][j], day, from, to);
      assert bars[k + 1] == rest[0];
      forall j | 0 <= j < k + 1
        ensures !InWindow(bars[j], day, from, to)
      {
        if j > 0 {
          assert bars[j] == bars[1..][j - 1];
        }
      }
    }
  }

  function Candles(rows: seq<Row>): (r: seq<Candle>)
    ensures |r| == |rows|
    ensures forall i :: 0 <= i < |r| ==> r[i] == rows[i].bar
  {
    seq(|rows|, i requires 0 <= i < |rows| => rows[i].bar)
  }

  function Closes(bars: seq<Candle>): (r: seq<real>)
    ensures |r| == |bars|
    ensures forall i :: 0 <= i < |r| ==> r[i] == bars[i].close
  {
    seq(|bars|, i requires 0 <= i < |bars| => bars[i].close)
  }

  function Volumes(bars: seq<Candle>): (r: seq<real>)
    ensures |r| == |bars|
    ensures forall i :: 0 <= i < |r| ==> r[i] == bars[i].volume
  {
    seq(|bars|, i requires 0 <= i < |bars| => bars[i].volume)
  }

  function Highs(bars: seq<Candle>): (r: seq<real>)
    ensures |r| == |bars|
    ensures forall i :: 0 <= i < |r| ==> r[i] == bars[i].high
  {
    seq(|bars|, i requires 0 <= i < |bars| => bars[i].high)
  }

  function Lows(bars: seq<Candle>): (r: seq<real>)
    ensures |r| == |bars|
    ensures forall i :: 0 <= i < |r| ==> r[i] == bars[i].low
  {
    seq(|bars|, i requires 0 <= i < |bars| => bars[i].low)
  }

  /** pandas max() of a non-empty column. */
  function MaxOf(s: seq<real>): (m: real)
    requires |s| > 0
    ensures forall i :: 0 <= i < |s| ==> s[i] <= m
    ensures exists i :: 0 <= i < |s| && s[i] == m
  {
    if |s| == 1 then s[0]
    else
      var rest := MaxOf(s[1..]);
      assert forall i :: 1 <= i < |s| ==> s[i] == s[1..][i - 1];
      if s[0] >= rest then s[0] else rest
  }

  /** pandas min() of a non-empty column. */
  function MinOf(s: seq<real>): (m: real)
    requires |s| > 0
    ensures forall i :: 0 <= i < |s| ==> m <= s[i]
    ensures exists i :: 0 <= i < |s| && s[i] == m
  {
    if |s| == 1 then s[0]
    else
      var rest := MinOf(s[1..]);
      assert forall i :: 1 <= i < |s| ==> s[i] == s[1..][i - 1];
      if s[0] <= rest then s[0] else rest
  }

  /** Current volume against the mean of the lookback bars before it:
      the last bar over the mean of the lookback bars just before it, 0 when
      that mean is not positive, and 1.0 when there are not lookback + 1 bars. */
  function TrailingVolumeRatio(volumes: seq<real>, lookback: nat): (r: real)
    ensures |volumes| < lookback + 1 ==> r == 1.0
    ensures |volumes| >= lookback + 1 && lookback > 0 ==>
              var avg := Mean(volumes[|volumes| - lookback - 1..|volumes| - 1]);
              (avg > 0.0 ==> r * avg == volumes[|volumes| - 1]) && (avg <= 0.0 ==> r == 0.0)
    ensures |volumes| >= lookback + 1 && lookback == 0 ==> r == 0.0
  {
    var n := |volumes|;
    if n < lookback + 1 then 1.0
    else if lookback == 0 then 0.0 // the mean of an empty window is NaN, and NaN > 0 is false
    else
      var avg := Mean(volumes[n - lookback - 1..n - 1]);
      if avg > 0.0 then volumes[n - 1] / avg else 0.0
  }

  /** The bar's range contains its 20-period EMA (a NaN EMA touches nothing). */
  predicate TouchesEma20(r: Row)
  {
    r.ema20.Some? && r.bar.low <= r.ema20.value <= r.bar.high
  }

  /** One of the last three bars (those that exist) touched the 20 EMA. */
  predicate TouchedRecently(rows: seq<Row>)
  {
    exists i :: 0 <= i < |rows| && |rows| - 3 <= i && TouchesEma20(rows[i])
  }

  /** The loop over iloc[-3], iloc[-2], iloc[-1] that stops at the first bar
      touching the 20 EMA, skipping offsets past the start of a short frame. */
  method TouchedEma20(rows: seq<Row>) returns (touched: bool)
    ensures touched <==> TouchedRecently(rows)
  {
    touched := false;
    var offset := -3;
    while offset < 0
      invariant -3 <= offset <= 0
      invariant !touched ==> forall i :: 0 <= i < |rows| && |rows| - 3 <= i < |rows| + offset ==> !TouchesEma20(rows[i])
      invariant touched ==> TouchedRecently(rows)
    {
      if offset >= -|rows| {
        var candle := rows[|rows| + offset];
        if TouchesEma20(candle) {
          touched := true;
          break;
        }
      }
      offset := offset + 1;
    }
  }

  /** The price lies within pct percent of the 20 EMA. At price 0 the Python
      division yields inf (never within) or NaN (a NaN comparison is false, so
      the bar counts as within). */
  predicate WithinPctOf(price: real, level: real, pct: real)
  {
    if price == 0.0 then level == 0.0
    else Abs((price - level) / price) * 100.0 <= pct
  }
}
