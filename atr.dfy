/** Average True Range: the adjust=False exponential average of each bar's
    true range, the stop-loss placed a multiple of it away from the entry, and
    a three-way volatility classification. */
module Atr {
  import opened Common
  import opened Bars
  import Ema

  /** The largest of high - low, |high - previous close| and
      |low - previous close|. The first bar has no previous close, and pandas'
      row-wise max skips the NaN, leaving high - low. */
  function TrueRange(bar: Candle, prevClose: Option<real>): (tr: real)
    ensures tr >= bar.high - bar.low
    ensures prevClose.Some? ==>
              tr >= Abs(bar.high - prevClose.value) && tr >= Abs(bar.low - prevClose.value)
    ensures tr == bar.high - bar.low ||
            (prevClose.Some? && (tr == Abs(bar.high - prevClose.value) || tr == Abs(bar.low - prevClose.value)))
  {
    match prevClose
    case None => bar.high - bar.low
    case Some(pc) => Max(bar.high - bar.low, Max(Abs(bar.high - pc), Abs(bar.low - pc)))
  }

  /** The close before bar i, none for the first bar. */
  function PrevClose(bars: seq<Candle>, i: nat): Option<real>
    requires i < |bars|
  {
    if i == 0 then None else Some(bars[i - 1].close)
  }

  function TrueRanges(bars: seq<Candle>): (r: seq<real>)
    ensures |r| == |bars|
    ensures forall i :: 0 <= i < |r| ==> r[i] == TrueRange(bars[i], PrevClose(bars, i))
  {
    seq(|bars|, i requires 0 <= i < |bars| => TrueRange(bars[i], PrevClose(bars, i)))
  }

  /** ATR.calculate: all NaN when there are fewer bars than the period. */
  function Calculate(bars: seq<Candle>, period: nat): (r: seq<Option<real>>)
    requires period >= 1
    ensures |r| == |bars|
    ensures |bars| < period ==> forall i :: 0 <= i < |r| ==> r[i] == None
    ensures |bars| >= period ==>
              forall i :: 0 <= i < |r| ==> r[i] == Some(Ema.EwmAt(TrueRanges(bars), Ema.Alpha(period), i))
  {
    Ema.Calculate(TrueRanges(bars), period)
  }

  /** On bars whose high is not below their low the ATR is never negative. */
  lemma AtrNonNegative(bars: seq<Candle>, period: nat, i: nat)
    requires period >= 1 && i < |bars|
    requires forall j :: 0 <= j < |bars| ==> bars[j].low <= bars[j].high
    ensures Calculate(bars, period)[i].Some? ==> Calculate(bars, period)[i].value >= 0.0
  {
    if |bars| >= period {
      Ema.EwmLowerBound(TrueRanges(bars), Ema.Alpha(period), i, 0.0);
    }
  }

  datatype Direction = Long | Short

  /** ATR.calculate_stop_loss: a NaN ATR leaves the stop at the entry;
      otherwise the stop sits atr * multiplier below a long entry or above a
      short one, rounded to two decimals. */
  function StopLoss(entry: real, atr: Option<real>, multiplier: real, direction: Direction): (stop: real)
    ensures atr.None? ==> stop == entry
    ensures atr.Some? && direction == Long ==> Abs(stop - (entry - atr.value * multiplier)) <= 0.005
    ensures atr.Some? && direction == Short ==> Abs(stop - (entry + atr.value * multiplier)) <= 0.005
  {
    match atr
    case None => entry
    case Some(a) =>
      if direction == Long then Round2(entry - a * multiplier) else Round2(entry + a * multiplier)
  }

  datatype Volatility = LowVolatility | MediumVolatility | HighVolatility | UnknownVolatility

  /** ATR as a percentage of price: under 1 is low, under 2 medium, else high. */
  function VolatilityLevel(atr: Option<real>, price: real): (v: Volatility)
    ensures v == UnknownVolatility <==> atr.None? || price == 0.0
    ensures atr.Some? && price != 0.0 ==>
              var pct := atr.value / price * 100.0;
              (v == LowVolatility <==> pct < 1.0) &&
              (v == MediumVolatility <==> 1.0 <= pct < 2.0) &&
              (v == HighVolatility <==> pct >= 2.0)
  {
    if atr.None? || price == 0.0 then UnknownVolatility
    else
      var pct := atr.value / price * 100.0;
      if pct < 1.0 then LowVolatility
      else if pct < 2.0 then MediumVolatility
      else HighVolatility
  }
}
