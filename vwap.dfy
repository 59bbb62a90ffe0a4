/** Volume-weighted average price: the running sum of typical price times
    volume over the running sum of volume, NaN while no volume has traded. */
module Vwap {
  import opened Common
  import opened Bars

  function TypicalPrice(c: Candle): real
  {
    (c.high + c.low + c.close) / 3.0
  }

  /** Sum of typical price times volume over the first n bars. */
  function CumPriceVolume(bars: seq<Candle>, n: nat): real
    requires n <= |bars|
  {
    if n == 0 then 0.0 else CumPriceVolume(bars, n - 1) + TypicalPrice(bars[n - 1]) * bars[n - 1].volume
  }

  /** Sum of volume over the first n bars. */
  function CumVolume(bars: seq<Candle>, n: nat): real
    requires n <= |bars|
  {
    if n == 0 then 0.0 else CumVolume(bars, n - 1) + bars[n - 1].volume
  }

  /** VWAP at bar i: NaN (None) where the cumulative volume is 0. */
  function VwapAt(bars: seq<Candle>, i: nat): (v: Option<real>)
    requires i < |bars|
    ensures v.None? <==> CumVolume(bars, i + 1) == 0.0
    ensures v.Some? ==> v.value * CumVolume(bars, i + 1) == CumPriceVolume(bars, i + 1)
  {
    var vol := CumVolume(bars, i + 1);
    if vol == 0.0 then None else Some(CumPriceVolume(bars, i + 1) / vol)
  }

  /** VWAP.calculate over a frame of bars; an empty frame gives an empty series. */
  function Calculate(bars: seq<Candle>): (r: seq<Option<real>>)
    ensures |r| == |bars|
    ensures forall i :: 0 <= i < |r| ==> r[i] == VwapAt(bars, i)
  {
    seq(|bars|, i requires 0 <= i < |bars| => VwapAt(bars, i))
  }

  lemma {:induction false} CumulativeBounds(bars: seq<Candle>, n: nat, lo: real, hi: real)
    requires n <= |bars|
    requires forall j :: 0 <= j < n ==> bars[j].volume >= 0.0 && lo <= TypicalPrice(bars[j]) <= hi
    ensures CumVolume(bars, n) >= 0.0
    ensures lo * CumVolume(bars, n) <= CumPriceVolume(bars, n) <= hi * CumVolume(bars, n)
    decreases n
  {
    if n > 0 {
      CumulativeBounds(bars, n - 1, lo, hi);
      var c := bars[n - 1];
      var d1, d2 := TypicalPrice(c) - lo, hi - TypicalPrice(c);
      assert d1 * c.volume >= 0.0 && d2 * c.volume >= 0.0;
      assert TypicalPrice(c) * c.volume - lo * c.volume == d1 * c.volume;
      assert hi * c.volume - TypicalPrice(c) * c.volume == d2 * c.volume;
      assert lo * CumVolume(bars, n) == lo * CumVolume(bars, n - 1) + lo * c.volume;
      assert hi * CumVolume(bars, n) == hi * CumVolume(bars, n - 1) + hi * c.volume;
    }
  }

  /** With non-negative volumes, VWAP lies between the lowest and the highest
      typical price seen so far. */
  lemma VwapWithinTypicalRange(bars: seq<Candle>, i: nat, lo: real, hi: real)
    requires i < |bars|
    requires forall j :: 0 <= j <= i ==> bars[j].volume >= 0.0 && lo <= TypicalPrice(bars[j]) <= hi
    ensures VwapAt(bars, i).Some? ==> lo <= VwapAt(bars, i).value <= hi
  {
    CumulativeBounds(bars, i + 1, lo, hi);
    var vol := CumVolume(bars, i + 1);
    if vol != 0.0 {
      var v := CumPriceVolume(bars, i + 1) / vol;
      assert v * vol == CumPriceVolume(bars, i + 1);
      assert (v - lo) * vol >= 0.0;
      assert (hi - v) * vol >= 0.0;
    }
  }

  /** The cumulative sums over the first n bars only look at those bars. */
  lemma {:induction false} CumulativePrefix(xs: seq<Candle>, ys: seq<Candle>, n: nat)
    requires n <= |xs| && n <= |ys| && xs[..n] == ys[..n]
    ensures CumVolume(xs, n) == CumVolume(ys, n)
    ensures CumPriceVolume(xs, n) == CumPriceVolume(ys, n)
    decreases n
  {
    if n > 0 {
      assert xs[n - 1] == xs[..n][n - 1] == ys[n - 1];
      assert xs[..n - 1] == xs[..n][..n - 1];
      assert ys[..n - 1] == ys[..n][..n - 1];
      CumulativePrefix(xs, ys, n - 1);
    }
  }

  /** The bars of calendar day d, in order. */
  function BarsOfDay(bars: seq<Candle>, d: int): (r: seq<Candle>)
    ensures |r| <= |bars|
  {
    if bars == [] then []
    else BarsOfDay(bars[..|bars| - 1], d) + (if DayOf(bars[|bars| - 1].time) == d then [bars[|bars| - 1]] else [])
  }

  lemma {:induction false} BarsOfDayAppend(a: seq<Candle>, b: seq<Candle>, d: int)
    ensures BarsOfDay(a + b, d) == BarsOfDay(a, d) + BarsOfDay(b, d)
    decreases |b|
  {
    if b == [] {
      assert a + b == a;
    } else {
      assert (a + b)[..|a + b| - 1] == a + b[..|b| - 1];
      BarsOfDayAppend(a, b[..|b| - 1], d);
    }
  }

  lemma {:induction false} BarsOfDayNone(bars: seq<Candle>, d: int)
    requires forall j :: 0 <= j < |bars| ==> DayOf(bars[j].time) != d
    ensures BarsOfDay(bars, d) == []
    decreases |bars|
  {
    if bars != [] {
      BarsOfDayNone(bars[..|bars| - 1], d);
    }
  }

  lemma {:induction false} BarsOfDayAll(bars: seq<Candle>, d: int)
    requires forall j :: 0 <= j < |bars| ==> DayOf(bars[j].time) == d
    ensures BarsOfDay(bars, d) == bars
    decreases |bars|
  {
    if bars != [] {
      BarsOfDayAll(bars[..|bars| - 1], d);
    }
  }

  /** VWAP.calculate_daily_reset at bar i: the VWAP of the bars of bar i's day
      up to and including bar i (a groupby on the date). */
  function DailyResetAt(bars: seq<Candle>, i: nat): (v: Option<real>)
    requires i < |bars|
  {
    var today := BarsOfDay(bars[..i + 1], DayOf(bars[i].time));
    BarsOfDayAppend(bars[..i], [bars[i]], DayOf(bars[i].time));
    assert bars[..i + 1] == bars[..i] + [bars[i]];
    VwapAt(today, |today| - 1)
  }

  function CalculateDailyReset(bars: seq<Candle>): (r: seq<Option<real>>)
    ensures |r| == |bars|
    ensures forall i :: 0 <= i < |r| ==> r[i] == DailyResetAt(bars, i)
  {
    seq(|bars|, i requires 0 <= i < |bars| => DailyResetAt(bars, i))
  }

  /** Nothing of earlier days carries over: after the bars of other days, the
      daily-reset VWAP of a day's bars is the plain VWAP of that day alone. */
  lemma DailyResetStartsFresh(earlier: seq<Candle>, today: seq<Candle>, k: nat)
    requires k < |today|
    requires forall j :: 0 <= j < |today| ==> DayOf(today[j].time) == DayOf(today[0].time)
    requires forall j :: 0 <= j < |earlier| ==> DayOf(earlier[j].time) != DayOf(today[0].time)
    ensures CalculateDailyReset(earlier + today)[|earlier| + k] == Calculate(today)[k]
  {
    var bars := earlier + today;
    var i := |earlier| + k;
    var d := DayOf(today[0].time);
    assert bars[i] == today[k];
    assert bars[..i + 1] == earlier + today[..k + 1];
    BarsOfDayAppend(earlier, today[..k + 1], d);
    BarsOfDayNone(earlier, d);
    BarsOfDayAll(today[..k + 1], d);
    assert BarsOfDay(bars[..i + 1], d) == today[..k + 1];
    CumulativePrefix(today[..k + 1], today, k + 1);
  }

  /** VWAP.is_above_vwap: false when VWAP is NaN. */
  function IsAboveVwap(price: real, vwap: Option<real>): (above: bool)
    ensures above <==> vwap.Some? && price > vwap.value
  {
    vwap.Some? && price > vwap.value
  }

  /** VWAP.distance_from_vwap: the signed percentage by which price exceeds
      VWAP, 0 when VWAP is NaN or 0. */
  function DistanceFromVwap(price: real, vwap: Option<real>): (pct: real)
    ensures vwap.None? || vwap.value == 0.0 ==> pct == 0.0
    ensures vwap.Some? && vwap.value != 0.0 ==> pct * vwap.value == (price - vwap.value) * 100.0
    ensures vwap.Some? && vwap.value > 0.0 ==> (pct > 0.0 <==> price > vwap.value) && (pct < 0.0 <==> price < vwap.value)
  {
    if vwap.None? || vwap.value == 0.0 then 0.0
    else (price - vwap.value) / vwap.value * 100.0
  }
}
