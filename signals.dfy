/** The signal engine: the reversal-candle classifier, the five-gate BUY and
    SELL detectors with their ATR stop and reward-to-risk target, the tiered
    quality score, and the pass that turns live candidates into signals
    ranked by score. */
module Signals {
  import opened Common
  import opened Bars
  import opened Sorting
  import opened Ledger
  import Atr

  datatype ReversalKind = BullishReversal | BearishReversal | NoReversal

  datatype Pattern = Hammer | Engulfing | BullishCandle | ShootingStar | BearishCandle | NoPattern

  datatype Reversal = Reversal(kind: ReversalKind, strength: real, pattern: Pattern)

  /** The result for "no pattern": type none, strength 0. */
  const NoReversalFound: Reversal := Reversal(NoReversal, 0.0, NoPattern)

  function AbsInt(i: int): nat
  {
    if i < 0 then -i else i
  }

  /** The row iloc[index] addresses in a frame of n rows. */
  function ILoc(n: nat, index: int): int
  {
    if index >= 0 then index else n + index
  }

  function Body(c: Candle): real
  {
    Abs(c.close - c.open)
  }

  function UpperWick(c: Candle): real
  {
    c.high - Max(c.open, c.close)
  }

  function LowerWick(c: Candle): real
  {
    Min(c.open, c.close) - c.low
  }

  function TotalRange(c: Candle): real
  {
    c.high - c.low
  }

  predicate IsHammer(c: Candle)
  {
    LowerWick(c) > 2.0 * Body(c) && UpperWick(c) < Body(c) * 0.5 && c.close > c.open
  }

  predicate IsBullishEngulfing(c: Candle, prev: Candle)
  {
    c.close > c.open && prev.close < prev.open && c.close > prev.open && c.open < prev.close
  }

  predicate IsShootingStar(c: Candle)
  {
    UpperWick(c) > 2.0 * Body(c) && LowerWick(c) < Body(c) * 0.5 && c.close < c.open
  }

  predicate IsBearishEngulfing(c: Candle, prev: Candle)
  {
    c.close < c.open && prev.close > prev.open && c.close < prev.open && c.open > prev.close
  }

  /** A strong directional candle: the body is over 60% of the range. */
  predicate IsStrongCandle(c: Candle)
  {
    Body(c) > TotalRange(c) * 0.6
  }

  /** The strength each pattern is reported with. */
  function PatternStrength(p: Pattern): real
  {
    match p
    case Hammer => 0.8
    case ShootingStar => 0.8
    case Engulfing => 0.9
    case BullishCandle => 0.6
    case BearishCandle => 0.6
    case NoPattern => 0.0
  }

  /** The bar a reversal is read from and the one before it exist, and the
      bar has a range. */
  predicate Classifiable(bars: seq<Candle>, index: int)
  {
    |bars| >= AbsInt(index) + 2 && TotalRange(bars[ILoc(|bars|, index)]) != 0.0
  }

  /** SignalGenerator.detect_reversal_candle for the bar at iloc[index] and
      the bar at iloc[index - 1]. A BUY check only looks for bullish patterns
      and a SELL check only for bearish ones; within a side the first rule
      that matches wins. */
  function DetectReversalCandle(bars: seq<Candle>, index: int, side: Side): (r: Reversal)
    ensures !Classifiable(bars, index) ==> r == NoReversalFound
    ensures r.kind == NoReversal <==> r == NoReversalFound
    ensures r.strength == PatternStrength(r.pattern)
    ensures side == Buy ==> r.kind != BearishReversal
    ensures side == Sell ==> r.kind != BullishReversal
    ensures r.kind == BullishReversal ==>
              Classifiable(bars, index) && bars[ILoc(|bars|, index)].close > bars[ILoc(|bars|, index)].open
    ensures r.kind == BearishReversal ==>
              Classifiable(bars, index) && bars[ILoc(|bars|, index)].close < bars[ILoc(|bars|, index)].open
    ensures Classifiable(bars, index) && side == Buy ==>
              var c, prev := bars[ILoc(|bars|, index)], bars[ILoc(|bars|, index - 1)];
              (r.pattern == Hammer <==> IsHammer(c)) &&
              (r.pattern == Engulfing <==> !IsHammer(c) && IsBullishEngulfing(c, prev)) &&
              (r.pattern == BullishCandle <==>
                 !IsHammer(c) && !IsBullishEngulfing(c, prev) && c.close > c.open && IsStrongCandle(c))
    ensures Classifiable(bars, index) && side == Sell ==>
              var c, prev := bars[ILoc(|bars|, index)], bars[ILoc(|bars|, index - 1)];
              (r.pattern == ShootingStar <==> IsShootingStar(c)) &&
              (r.pattern == Engulfing <==> !IsShootingStar(c) && IsBearishEngulfing(c, prev)) &&
              (r.pattern == BearishCandle <==>
                 !IsShootingStar(c) && !IsBearishEngulfing(c, prev) && c.close < c.open && IsStrongCandle(c))
  {
    var n := |bars|;
    if n < AbsInt(index) + 2 then NoReversalFound
    else
      var c := bars[ILoc(n, index)];
      var prev := bars[ILoc(n, index - 1)];
      if TotalRange(c) == 0.0 then NoReversalFound
      else if side == Buy then
        if IsHammer(c) then Reversal(BullishReversal, 0.8, Hammer)
        else if IsBullishEngulfing(c, prev) then Reversal(BullishReversal, 0.9, Engulfing)
        else if c.close > c.open && IsStrongCandle(c) then Reversal(BullishReversal, 0.6, BullishCandle)
        else NoReversalFound
      else
        if IsShootingStar(c) then Reversal(BearishReversal, 0.8, ShootingStar)
        else if IsBearishEngulfing(c, prev) then Reversal(BearishReversal, 0.9, Engulfing)
        else if c.close < c.open && IsStrongCandle(c) then Reversal(BearishReversal, 0.6, BearishCandle)
        else NoReversalFound
  }

  /** A bar whose close equals its open is no reversal for either side. */
  lemma FlatCandleIsNoReversal(bars: seq<Candle>, index: int, side: Side)
    requires |bars| >= AbsInt(index) + 2
    requires bars[ILoc(|bars|, index)].close == bars[ILoc(|bars|, index)].open
    ensures DetectReversalCandle(bars, index, side) == NoReversalFound
  {
  }

  /** A reversal found has one of the three strengths 0.9, 0.8 and 0.6. */
  lemma ReversalStrengths(bars: seq<Candle>, index: int, side: Side)
    ensures var r := DetectReversalCandle(bars, index, side);
            r.kind != NoReversal ==> r.strength == 0.9 || r.strength == 0.8 || r.strength == 0.6
  {
  }

  /** The per-side thresholds read from the configuration. */
  datatype SideParams = SideParams(pullbackPct: real, minVolumeRatio: real)

  datatype SignalConfig = SignalConfig(buy: SideParams, sell: SideParams, riskRewardRatio: real)

  /** The stop is placed this many ATRs from the entry. */
  const StopMultiplier: real := 1.5
  /** The volume ratio compares the last bar with this many bars before it. */
  const VolumeLookback: nat := 10
  /** Fewer bars than this never give a signal. */
  const MinSignalBars: nat := 5

  datatype Signal = Signal(side: Side, entry: real, stopLoss: real, target: real, atr: Option<real>,
                           volumeRatio: real, pattern: Pattern, strength: real,
                           ema20: real, ema200: real, vwap: real)

  function ParamsFor(cfg: SignalConfig, side: Side): SideParams
  {
    if side == Buy then cfg.buy else cfg.sell
  }

  /** Strictly above a level for a BUY, strictly below it for a SELL. */
  predicate BeyondLevel(side: Side, price: real, level: real)
  {
    if side == Buy then price > level else price < level
  }

  function ExpectedKind(side: Side): ReversalKind
  {
    if side == Buy then BullishReversal else BearishReversal
  }

  /** The volume ratio of the signal detectors. */
  function SignalVolumeRatio(rows: seq<Row>): real
  {
    TrailingVolumeRatio(Volumes(Candles(rows)), VolumeLookback)
  }

  /** The stop detect_buy_signal and detect_sell_signal place: StopMultiplier
      ATRs below a BUY entry or above a SELL entry. */
  function SignalStop(entry: real, atr: Option<real>, side: Side): (stop: real)
    ensures atr.None? ==> stop == entry
    ensures atr.Some? && side == Buy ==> Abs(stop - (entry - atr.value * StopMultiplier)) <= 0.005
    ensures atr.Some? && side == Sell ==> Abs(stop - (entry + atr.value * StopMultiplier)) <= 0.005
  {
    Atr.StopLoss(entry, atr, StopMultiplier, if side == Buy then Atr.Long else Atr.Short)
  }

  /** The target riskRewardRatio times the risk beyond the entry, rounded to
      two decimals: entry + risk * ratio for a BUY with risk = entry - stop,
      entry - risk * ratio for a SELL with risk = stop - entry. */
  function SignalTarget(entry: real, stop: real, side: Side, rr: real): (target: real)
    ensures Abs(target - (entry + (entry - stop) * rr)) <= 0.005
  {
    var unrounded := if side == Buy then var risk := entry - stop; entry + risk * rr
                     else var risk := stop - entry; entry - risk * rr;
    NegatedRisk(entry, stop, rr);
    Round2(unrounded)
  }

  lemma NegatedRisk(entry: real, stop: real, rr: real)
    ensures entry - (stop - entry) * rr == entry + (entry - stop) * rr
  {
    assert (stop - entry) * rr == -((entry - stop) * rr);
  }

  /** With a non-negative ATR the stop of an entry on the cent grid is on the
      risk side of it: rounding to cents cannot move it past the entry. */
  lemma StopOnRiskSide(entry: real, cents: int, atr: real, side: Side)
    requires entry == cents as real / 100.0 && atr >= 0.0
    ensures side == Buy ==> SignalStop(entry, Some(atr), side) <= entry
    ensures side == Sell ==> SignalStop(entry, Some(atr), side) >= entry
  {
    var d := atr * StopMultiplier;
    if side == Buy {
      Round2Below(entry - d, cents);
    } else {
      Round2Above(entry + d, cents);
    }
  }

  /** With the stop on the risk side and a non-negative ratio, the target of
      an entry on the cent grid is on the reward side of it. */
  lemma TargetOnRewardSide(entry: real, cents: int, stop: real, side: Side, rr: real)
    requires entry == cents as real / 100.0 && rr >= 0.0
    requires if side == Buy then stop <= entry else stop >= entry
    ensures side == Buy ==> SignalTarget(entry, stop, side, rr) >= entry
    ensures side == Sell ==> SignalTarget(entry, stop, side, rr) <= entry
  {
    if side == Buy {
      var move := (entry - stop) * rr;
      assert move >= 0.0;
      assert SignalTarget(entry, stop, side, rr) == Round2(entry + move);
      Round2Above(entry + move, cents);
    } else {
      var move := (stop - entry) * rr;
      assert move >= 0.0;
      assert SignalTarget(entry, stop, side, rr) == Round2(entry - move);
      Round2Below(entry - move, cents);
    }
  }

  /** Every gate of detect_buy_signal / detect_sell_signal passes: enough
      bars, the indicator columns are there and defined on the last bar, the
      close is beyond the 200 EMA and the VWAP, it is near the 20 EMA or one
      of the last three bars touched it, the last bar is a reversal of the
      side, and the volume ratio reaches the minimum. */
  predicate Gates(frame: Frame, side: Side, cfg: SignalConfig)
  {
    var rows := frame.rows;
    |rows| >= MinSignalBars && frame.indicatorColumns &&
    var last := rows[|rows| - 1];
    var price := last.bar.close;
    last.ema20.Some? && last.ema200.Some? && last.vwap.Some? &&
    BeyondLevel(side, price, last.ema200.value) && BeyondLevel(side, price, last.vwap.value) &&
    (WithinPctOf(price, last.ema20.value, ParamsFor(cfg, side).pullbackPct) || TouchedRecently(rows)) &&
    DetectReversalCandle(Candles(rows), -1, side).kind == ExpectedKind(side) &&
    SignalVolumeRatio(rows) >= ParamsFor(cfg, side).minVolumeRatio
  }

  /** The signal built from the last bar once every gate has passed. */
  function MakeSignal(rows: seq<Row>, side: Side, cfg: SignalConfig): (s: Signal)
    requires |rows| > 0
    requires rows[|rows| - 1].ema20.Some? && rows[|rows| - 1].ema200.Some? && rows[|rows| - 1].vwap.Some?
  {
    var last := rows[|rows| - 1];
    var price := last.bar.close;
    var stop := SignalStop(price, last.atr, side);
    var rev := DetectReversalCandle(Candles(rows), -1, side);
    Signal(side, price, stop, SignalTarget(price, stop, side, cfg.riskRewardRatio), last.atr, SignalVolumeRatio(rows), rev.pattern, rev.strength,
           last.ema20.value, last.ema200.value, last.vwap.value)
  }

  /** The signal detect_buy_signal (side Buy) or detect_sell_signal (side
      Sell) returns for a frame, None when a gate fails. */
  function SignalOf(frame: Frame, side: Side, cfg: SignalConfig): (s: Option<Signal>)
    ensures s.Some? <==> Gates(frame, side, cfg)
    ensures s.Some? ==>
              var rows := frame.rows;
              var last := rows[|rows| - 1];
              var sig := s.value;
              sig.side == side && sig.entry == last.bar.close && sig.atr == last.atr &&
              last.ema20 == Some(sig.ema20) && last.ema200 == Some(sig.ema200) && last.vwap == Some(sig.vwap) &&
              BeyondLevel(side, sig.entry, sig.ema200) && BeyondLevel(side, sig.entry, sig.vwap) &&
              (WithinPctOf(sig.entry, sig.ema20, ParamsFor(cfg, side).pullbackPct) || TouchedRecently(rows)) &&
              sig.volumeRatio >= ParamsFor(cfg, side).minVolumeRatio
    ensures s.Some? ==>
              var rows := frame.rows;
              var c := rows[|rows| - 1].bar;
              var sig := s.value;
              sig.pattern != NoPattern && sig.strength == PatternStrength(sig.pattern) &&
              (side == Buy ==> c.close > c.open) && (side == Sell ==> c.close < c.open)
    ensures s.Some? ==>
              s.value.stopLoss == SignalStop(s.value.entry, s.value.atr, side) &&
              s.value.target == SignalTarget(s.value.entry, s.value.stopLoss, side, cfg.riskRewardRatio)
  {
    if Gates(frame, side, cfg) then
      var rows := frame.rows;
      assert Candles(rows)[ILoc(|rows|, -1)] == rows[|rows| - 1].bar;
      Some(MakeSignal(rows, side, cfg))
    else None
  }

  /** The detectors themselves: the gates in the source's order, each
      failing one returning None, with the EMA-touch loop run only when the
      close is not already within the pullback distance. */
  method DetectSignal(frame: Frame, side: Side, cfg: SignalConfig) returns (s: Option<Signal>)
    ensures s == SignalOf(frame, side, cfg)
  {
    var rows := frame.rows;
    if |rows| < MinSignalBars || !frame.indicatorColumns {
      return None;
    }
    var last := rows[|rows| - 1];
    if last.ema20.None? || last.ema200.None? || last.vwap.None? {
      return None;
    }
    var price := last.bar.close;
    if !BeyondLevel(side, price, last.ema200.value) || !BeyondLevel(side, price, last.vwap.value) {
      return None;
    }
    var params := ParamsFor(cfg, side);
    if !WithinPctOf(price, last.ema20.value, params.pullbackPct) {
      var touched := TouchedEma20(rows);
      if !touched {
        return None;
      }
    }
    var reversal := DetectReversalCandle(Candles(rows), -1, side);
    if reversal.kind != ExpectedKind(side) {
      return None;
    }
    var volumeRatio := SignalVolumeRatio(rows);
    if volumeRatio < params.minVolumeRatio {
      return None;
    }
    s := Some(MakeSignal(rows, side, cfg));
  }

  /** A detected signal at an entry on the cent grid, with a non-negative
      ATR and ratio, has its stop on the risk side and its target on the
      reward side of the entry. */
  lemma DetectedSignalSides(frame: Frame, side: Side, cfg: SignalConfig, cents: int)
    requires SignalOf(frame, side, cfg).Some?
    requires var sig := SignalOf(frame, side, cfg).value;
             sig.entry == cents as real / 100.0 && sig.atr.Some? && sig.atr.value >= 0.0 &&
             cfg.riskRewardRatio >= 0.0
    ensures var sig := SignalOf(frame, side, cfg).value;
            if side == Buy then sig.stopLoss <= sig.entry <= sig.target
            else sig.target <= sig.entry <= sig.stopLoss
  {
    var sig := SignalOf(frame, side, cfg).value;
    StopOnRiskSide(sig.entry, cents, sig.atr.value, side);
    TargetOnRewardSide(sig.entry, cents, sig.stopLoss, side, cfg.riskRewardRatio);
  }

  /** A BUY signal and a SELL signal can never both come from one frame:
      the close cannot be both above and below the 200 EMA. */
  lemma BuyAndSellExclusive(frame: Frame, cfg: SignalConfig)
    ensures !(SignalOf(frame, Buy, cfg).Some? && SignalOf(frame, Sell, cfg).Some?)
  {
  }

  /** Points for the distance from the 200 EMA: over 2% gives 30, over 1%
      gives 20, otherwise 10. At a zero EMA the division gives inf (30 points)
      or, at a zero price too, NaN (10 points). */
  function TrendPoints(entry: real, ema200: real): real
  {
    if ema200 == 0.0 then (if entry == 0.0 then 10.0 else 30.0)
    else
      var distance := Abs((entry - ema200) / ema200) * 100.0;
      if distance > 2.0 then 30.0 else if distance > 1.0 then 20.0 else 10.0
  }

  function VolumePoints(volumeRatio: real): real
  {
    if volumeRatio > 2.0 then 25.0
    else if volumeRatio > 1.5 then 20.0
    else if volumeRatio > 1.2 then 15.0
    else 10.0
  }

  /** Points for reward over risk (0 when nothing is risked): at least 2
      gives 20, at least 1.5 gives 15, otherwise 10. */
  function RewardPoints(entry: real, stopLoss: real, target: real): real
  {
    var risk := Abs(entry - stopLoss);
    var reward := Abs(target - entry);
    var ratio := if risk > 0.0 then reward / risk else 0.0;
    if ratio >= 2.0 then 20.0 else if ratio >= 1.5 then 15.0 else 10.0
  }

  /** SignalGenerator.score_signal: trend, volume, pattern strength and
      reward points, capped at 100. */
  function ScoreSignal(sig: Signal): (score: real)
    ensures score <= 100.0
    ensures sig.strength >= 0.0 ==> score >= 30.0
    ensures sig.strength <= 1.0 ==>
              score == TrendPoints(sig.entry, sig.ema200) + VolumePoints(sig.volumeRatio) +
                       sig.strength * 25.0 + RewardPoints(sig.entry, sig.stopLoss, sig.target)
  {
    var score := TrendPoints(sig.entry, sig.ema200) + VolumePoints(sig.volumeRatio) +
                 sig.strength * 25.0 + RewardPoints(sig.entry, sig.stopLoss, sig.target);
    Min(score, 100.0)
  }

  /** A higher volume ratio never lowers the score. */
  lemma ScoreMonotoneInVolume(sig: Signal, higherRatio: real)
    requires sig.volumeRatio <= higherRatio && 0.0 <= sig.strength <= 1.0
    ensures ScoreSignal(sig) <= ScoreSignal(sig.(volumeRatio := higherRatio))
  {
  }

  /** For a detected signal the cap never binds: the score lies between 45
      (the weakest pattern with the lowest tiers) and 97.5. */
  lemma DetectedScoreRange(frame: Frame, side: Side, cfg: SignalConfig)
    requires SignalOf(frame, side, cfg).Some?
    ensures 45.0 <= ScoreSignal(SignalOf(frame, side, cfg).value) <= 97.5
  {
    var sig := SignalOf(frame, side, cfg).value;
    assert sig.strength == 0.6 || sig.strength == 0.8 || sig.strength == 0.9;
  }

  /** A live candidate as the signal pass sees it: its data frame (absent or
      empty when nothing was loaded) and the trend tag, if any. */
  datatype SignalCandidate = SignalCandidate(symbol: string, data: Option<Frame>, trend: Option<Bias>)

  /** A signal together with the symbol and score the pass attaches to it. */
  datatype ScoredSignal = ScoredSignal(symbol: string, signal: Signal, score: real)

  /** What one candidate contributes: a BUY check for a bullish candidate, a
      SELL check for a bearish one, nothing otherwise. */
  function CandidateSignal(c: SignalCandidate, cfg: SignalConfig): (r: Option<ScoredSignal>)
    ensures r.Some? ==>
              c.data.Some? && c.data.value.rows != [] && c.trend.Some? &&
              r.value.symbol == c.symbol && r.value.score == ScoreSignal(r.value.signal) &&
              (r.value.signal.side == Buy <==> c.trend == Some(Bullish)) &&
              Some(r.value.signal) == SignalOf(c.data.value, r.value.signal.side, cfg)
    ensures c.data.Some? && c.data.value.rows != [] && c.trend == Some(Bullish) ==>
              (r.Some? <==> SignalOf(c.data.value, Buy, cfg).Some?)
    ensures c.data.Some? && c.data.value.rows != [] && c.trend == Some(Bearish) ==>
              (r.Some? <==> SignalOf(c.data.value, Sell, cfg).Some?)
  {
    if c.data.None? || c.data.value.rows == [] || c.trend.None? then None
    else
      var side := if c.trend.value == Bullish then Buy else Sell;
      match SignalOf(c.data.value, side, cfg)
      case None => None
      case Some(sig) => Some(ScoredSignal(c.symbol, sig, ScoreSignal(sig)))
  }

  function CandidateSignalFn(cfg: SignalConfig): SignalCandidate -> Option<ScoredSignal>
  {
    c => CandidateSignal(c, cfg)
  }

  /** Signals are ranked by score alone. */
  function ScoreKey(s: ScoredSignal): SortKey
  {
    SortKey(s.score, 0.0, 0.0)
  }

  /** SignalGenerator.generate_signals: one pass over the candidates that
      appends every signal found, then a stable sort by score, highest
      first. */
  method GenerateSignals(candidates: seq<SignalCandidate>, cfg: SignalConfig) returns (signals: seq<ScoredSignal>)
    ensures signals == SortDesc(FilterMap(candidates, CandidateSignalFn(cfg)), ScoreKey)
  {
    signals := [];
    var i := 0;
    while i < |candidates|
      invariant 0 <= i <= |candidates|
      invariant signals == FilterMap(candidates[..i], CandidateSignalFn(cfg))
    {
      var candidate := candidates[i];
      FilterMapStep(candidates, CandidateSignalFn(cfg), i);
      var found: Option<ScoredSignal> := None;
      if candidate.data.Some? && candidate.data.value.rows != [] && candidate.trend.Some? {
        var side := if candidate.trend.value == Bullish then Buy else Sell;
        var signal := DetectSignal(candidate.data.value, side, cfg);
        if signal.Some? {
          found := Some(ScoredSignal(candidate.symbol, signal.value, ScoreSignal(signal.value)));
        }
      }
      assert found == CandidateSignalFn(cfg)(candidate);
      signals := signals + OptionToSeq(found);
      i := i + 1;
    }
    assert candidates[..i] == candidates;
    signals := SortDesc(signals, ScoreKey);
  }

  /** The ranked signals are exactly the signals of the candidates, each
      once, in descending score with ties left in candidate order; a BUY is
      only ever the signal of a bullish candidate and a SELL of a bearish
      one. */
  lemma GeneratedSignals(candidates: seq<SignalCandidate>, cfg: SignalConfig)
    ensures var found := FilterMap(candidates, CandidateSignalFn(cfg));
            var ranked := SortDesc(found, ScoreKey);
            SortedDesc(ranked, ScoreKey) && multiset(ranked) == multiset(found) &&
            (forall k :: WithKey(ranked, ScoreKey, k) == WithKey(found, ScoreKey, k)) &&
            (forall y :: y in ranked <==> exists i :: 0 <= i < |candidates| && CandidateSignal(candidates[i], cfg) == Some(y))
  {
    var f := CandidateSignalFn(cfg);
    var found := FilterMap(candidates, f);
    SortDescCorrect(found, ScoreKey);
    forall k {
      SortDescStable(found, ScoreKey, k);
    }
    forall y
      ensures y in SortDesc(found, ScoreKey) <==> exists i :: 0 <= i < |candidates| && CandidateSignal(candidates[i], cfg) == Some(y)
    {
      SortDescMember(found, ScoreKey, y);
      FilterMapMember(candidates, f, y);
    }
  }
}
