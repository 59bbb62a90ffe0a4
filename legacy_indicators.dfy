/** The older indicator helpers the legacy strategy relies on: the eight-way
    reversal classifier (which, unlike the signal engine's, also knows
    dojis and checks bullish and bearish rules in one pass), the volume
    surge multiplier, and the higher-high/higher-low and
    lower-high/lower-low trend checks. */
module LegacyIndicators {
  import opened Common
  import opened Bars
  import Signals

  datatype CandlePattern = Hammer | Engulfing | ShootingStar | Doji | BullishCandle | BearishCandle | NoPattern

  datatype CandleReversal = CandleReversal(kind: Signals.ReversalKind, strength: real, pattern: CandlePattern)

  /** The result for "no pattern": type none, strength 0. */
  const NoCandleReversal: CandleReversal := CandleReversal(Signals.NoReversal, 0.0, NoPattern)

  /** A doji: the body is under a tenth of the range. */
  predicate IsDoji(c: Candle)
  {
    Signals.Body(c) < Signals.TotalRange(c) * 0.1
  }

  /** The strength each pattern is reported with. */
  function CandleStrength(p: CandlePattern): real
  {
    match p
    case Hammer => 0.8
    case ShootingStar => 0.8
    case Engulfing => 0.9
    case Doji => 0.6
    case BullishCandle => 0.5
    case BearishCandle => 0.5
    case NoPattern => 0.0
  }

  /** The bar at iloc[index] and the one before it both exist. */
  predicate HasCandles(bars: seq<Candle>, index: int)
  {
    |bars| >= Signals.AbsInt(index) + 2
  }

  /** The bar a reversal is read from. */
  function CandleAt(bars: seq<Candle>, index: int): Candle
    requires HasCandles(bars, index)
  {
    bars[Signals.ILoc(|bars|, index)]
  }

  /** The bar before it. */
  function PreviousAt(bars: seq<Candle>, index: int): Candle
    requires HasCandles(bars, index)
  {
    bars[Signals.ILoc(|bars|, index - 1)]
  }

  /** One if/elif chain over both sides: hammer, bullish engulfing, shooting
      star, bearish engulfing, bullish doji, bearish doji, then a strong
      bullish or bearish candle; the first rule that holds decides. */
  function Classify(c: Candle, prev: Candle): (r: CandleReversal)
    ensures r.strength == CandleStrength(r.pattern)
    ensures r.kind == Signals.NoReversal <==> r == NoCandleReversal
    ensures r.kind == Signals.BullishReversal ==> c.close > c.open
    ensures r.kind == Signals.BearishReversal ==> c.close < c.open
    ensures (r.pattern == Hammer <==> Signals.IsHammer(c))
    ensures (r == CandleReversal(Signals.BullishReversal, 0.9, Engulfing) <==>
               !Signals.IsHammer(c) && Signals.IsBullishEngulfing(c, prev))
    ensures (r.pattern == ShootingStar <==>
               !Signals.IsHammer(c) && !Signals.IsBullishEngulfing(c, prev) && Signals.IsShootingStar(c))
    ensures (r == CandleReversal(Signals.BearishReversal, 0.9, Engulfing) <==>
               !Signals.IsHammer(c) && !Signals.IsBullishEngulfing(c, prev) && !Signals.IsShootingStar(c) &&
               Signals.IsBearishEngulfing(c, prev))
    ensures (r.pattern == Doji <==>
               !Signals.IsHammer(c) && !Signals.IsBullishEngulfing(c, prev) && !Signals.IsShootingStar(c) &&
               !Signals.IsBearishEngulfing(c, prev) && IsDoji(c) && c.close != c.open)
    ensures (r.pattern == BullishCandle <==>
               !Signals.IsHammer(c) && !Signals.IsBullishEngulfing(c, prev) && !IsDoji(c) &&
               c.close > c.open && Signals.IsStrongCandle(c))
    ensures (r.pattern == BearishCandle <==>
               !Signals.IsShootingStar(c) && !Signals.IsBearishEngulfing(c, prev) && !IsDoji(c) &&
               c.close < c.open && Signals.IsStrongCandle(c))
  {
    if Signals.IsHammer(c) then CandleReversal(Signals.BullishReversal, 0.8, Hammer)
    else if Signals.IsBullishEngulfing(c, prev) then CandleReversal(Signals.BullishReversal, 0.9, Engulfing)
    else if Signals.IsShootingStar(c) then CandleReversal(Signals.BearishReversal, 0.8, ShootingStar)
    else if Signals.IsBearishEngulfing(c, prev) then CandleReversal(Signals.BearishReversal, 0.9, Engulfing)
    else if IsDoji(c) && c.close > c.open then CandleReversal(Signals.BullishReversal, 0.6, Doji)
    else if IsDoji(c) && c.close < c.open then CandleReversal(Signals.BearishReversal, 0.6, Doji)
    else if c.close > c.open && Signals.IsStrongCandle(c) then CandleReversal(Signals.BullishReversal, 0.5, BullishCandle)
    else if c.close < c.open && Signals.IsStrongCandle(c) then CandleReversal(Signals.BearishReversal, 0.5, BearishCandle)
    else NoCandleReversal
  }

  /** TechnicalIndicators.detect_reversal_candle for the bar at iloc[index]:
      type none, strength 0 without that bar and the one before it,
      otherwise the classification of the pair. There is no guard for a
      zero range here: such a bar only fails the doji and candle rules. */
  function DetectReversalCandle(bars: seq<Candle>, index: int): (r: CandleReversal)
    ensures !HasCandles(bars, index) ==> r == NoCandleReversal
    ensures HasCandles(bars, index) ==> r == Classify(CandleAt(bars, index), PreviousAt(bars, index))
  {
    if |bars| < Signals.AbsInt(index) + 2 then NoCandleReversal
    else Classify(CandleAt(bars, index), PreviousAt(bars, index))
  }

  /** A bar whose close equals its open is never a reversal, whatever the
      bar before it. */
  lemma FlatCandleIsNoReversal(bars: seq<Candle>, index: int)
    requires HasCandles(bars, index) ==> CandleAt(bars, index).close == CandleAt(bars, index).open
    ensures DetectReversalCandle(bars, index) == NoCandleReversal
  {
  }

  /** A reversal reports one of the strengths 0, 0.5, 0.6, 0.8 and 0.9; a
      bullish one is a rising bar and a bearish one a falling bar. */
  lemma ReversalShape(bars: seq<Candle>, index: int)
    ensures var r := DetectReversalCandle(bars, index);
            (r.strength == 0.0 || r.strength == 0.5 || r.strength == 0.6 || r.strength == 0.8 || r.strength == 0.9) &&
            (r.kind == Signals.BullishReversal ==> CandleAt(bars, index).close > CandleAt(bars, index).open) &&
            (r.kind == Signals.BearishReversal ==> CandleAt(bars, index).close < CandleAt(bars, index).open)
  {
  }

  /** TechnicalIndicators.calculate_volume_surge: the last volume over the
      mean of the lookback volumes before it; 1.0 with fewer than lookback
      + 1 bars or a zero mean. With lookback 0 the mean of the empty window is
      NaN and so is the result (None). */
  function VolumeSurge(volumes: seq<real>, lookback: nat): (r: Option<real>)
    ensures |volumes| < lookback + 1 ==> r == Some(1.0)
    ensures r.None? <==> |volumes| >= lookback + 1 && lookback == 0
    ensures |volumes| >= lookback + 1 && lookback > 0 ==>
              var avg := Mean(volumes[|volumes| - lookback - 1..|volumes| - 1]);
              r.Some? && (avg == 0.0 ==> r.value == 1.0) && (avg != 0.0 ==> r.value * avg == volumes[|volumes| - 1])
  {
    var n := |volumes|;
    if n < lookback + 1 then Some(1.0)
    else if lookback == 0 then None
    else
      var avg := Mean(volumes[n - lookback - 1..n - 1]);
      if avg == 0.0 then Some(1.0) else Some(volumes[n - 1] / avg)
  }

  /** Over a positive mean, the surge reaches a factor k >= 0 exactly when
      the last volume reaches k times the mean. */
  lemma SurgeReaches(volumes: seq<real>, lookback: nat, k: real)
    requires |volumes| >= lookback + 1 && lookback > 0 && k >= 0.0
    requires Mean(volumes[|volumes| - lookback - 1..|volumes| - 1]) > 0.0
    ensures VolumeSurge(volumes, lookback).value >= k <==>
              volumes[|volumes| - 1] >= k * Mean(volumes[|volumes| - lookback - 1..|volumes| - 1])
  {
    var avg := Mean(volumes[|volumes| - lookback - 1..|volumes| - 1]);
    var r := VolumeSurge(volumes, lookback).value;
    assert r * avg == volumes[|volumes| - 1];
    if r >= k {
      assert r * avg >= k * avg;
    } else {
      assert r * avg < k * avg;
    }
  }

  /** Every step of the sequence rises strictly. */
  predicate Rising(s: seq<real>)
  {
    forall i :: 1 <= i < |s| ==> s[i - 1] < s[i]
  }

  /** Every step of the sequence falls strictly. */
  predicate Falling(s: seq<real>)
  {
    forall i :: 1 <= i < |s| ==> s[i - 1] > s[i]
  }

  /** The last periods + 1 values of a column rise (or fall) exactly when
      every step between the last periods + 1 rows does. */
  lemma LastRunSteps(s: seq<real>, periods: nat)
    requires |s| >= periods + 1
    ensures Rising(LastN(s, periods + 1)) <==> forall i :: |s| - periods <= i < |s| ==> s[i - 1] < s[i]
    ensures Falling(LastN(s, periods + 1)) <==> forall i :: |s| - periods <= i < |s| ==> s[i - 1] > s[i]
  {
    var off := |s| - periods - 1;
    var run := LastN(s, periods + 1);
    assert forall j :: 0 <= j < |run| ==> run[j] == s[off + j];
    if Rising(run) {
      forall i | |s| - periods <= i < |s|
        ensures s[i - 1] < s[i]
      {
        assert run[i - off - 1] < run[i - off];
      }
    }
    if forall i :: |s| - periods <= i < |s| ==> s[i - 1] < s[i] {
      forall j | 1 <= j < |run|
        ensures run[j - 1] < run[j]
      {
        assert s[off + j - 1] < s[off + j];
      }
    }
    if Falling(run) {
      forall i | |s| - periods <= i < |s|
        ensures s[i - 1] > s[i]
      {
        assert run[i - off - 1] > run[i - off];
      }
    }
    if forall i :: |s| - periods <= i < |s| ==> s[i - 1] > s[i] {
      forall j | 1 <= j < |run|
        ensures run[j - 1] > run[j]
      {
        assert s[off + j - 1] > s[off + j];
      }
    }
  }

  /** TechnicalIndicators.is_higher_high_higher_low: with at least periods
      + 1 bars, the last periods + 1 highs and lows both rise strictly. */
  function IsHigherHighHigherLow(bars: seq<Candle>, periods: nat): (b: bool)
    ensures b <==> |bars| >= periods + 1 &&
                   forall i :: |bars| - periods <= i < |bars| ==> bars[i - 1].high < bars[i].high && bars[i - 1].low < bars[i].low
  {
    if |bars| < periods + 1 then false
    else
      LastRunSteps(Highs(bars), periods);
      LastRunSteps(Lows(bars), periods);
      Rising(LastN(Highs(bars), periods + 1)) && Rising(LastN(Lows(bars), periods + 1))
  }

  /** TechnicalIndicators.is_lower_high_lower_low: the mirror image, with
      the last periods + 1 highs and lows both falling strictly. */
  function IsLowerHighLowerLow(bars: seq<Candle>, periods: nat): (b: bool)
    ensures b <==> |bars| >= periods + 1 &&
                   forall i :: |bars| - periods <= i < |bars| ==> bars[i - 1].high > bars[i].high && bars[i - 1].low > bars[i].low
  {
    if |bars| < periods + 1 then false
    else
      LastRunSteps(Highs(bars), periods);
      LastRunSteps(Lows(bars), periods);
      Falling(LastN(Highs(bars), periods + 1)) && Falling(LastN(Lows(bars), periods + 1))
  }

  /** Over at least one period the two trend checks never agree: the last
      high cannot be both above and below the one before it. */
  lemma TrendChecksExclusive(bars: seq<Candle>, periods: nat)
    requires periods >= 1
    ensures !(IsHigherHighHigherLow(bars, periods) && IsLowerHighLowerLow(bars, periods))
  {
    if |bars| >= periods + 1 {
      var last := |bars| - 1;
      assert |bars| - periods <= last;
      if IsHigherHighHigherLow(bars, periods) {
        assert bars[last - 1].high < bars[last].high;
      }
    }
  }

  /** A rising run over more periods contains the shorter runs: a 3-period
      higher-high/higher-low is also a 2-period one, and likewise falling. */
  lemma TrendChecksShrink(bars: seq<Candle>, periods: nat, fewer: nat)
    requires fewer <= periods
    ensures IsHigherHighHigherLow(bars, periods) ==> IsHigherHighHigherLow(bars, fewer)
    ensures IsLowerHighLowerLow(bars, periods) ==> IsLowerHighLowerLow(bars, fewer)
  {
  }
}
