/** The older trading strategy: BUY and SELL setup detection on the 20 EMA,
    200 EMA and VWAP (where touching a level counts, unlike the signal
    engine's strict rule), the setup quality score, uncapped sizing, ATR and
    swing stops, the reward-to-risk target, and the scan that turns
    candidates into trading plans ranked by quality. */
module LegacyStrategy {
  import opened Common
  import opened Bars
  import opened Sorting
  import opened Ledger
  import Signals
  import PositionSizing
  import LegacyIndicators

  /** Fewer bars than this never give a setup. */
  const MinSetupBars: nat := 5
  /** A close within this percentage of the 20 EMA counts as a pullback. */
  const PullbackPct: real := 0.5
  /** The volume surge compares the last bar with this many bars before it. */
  const SurgeLookback: nat := 10
  /** A setup needs at least average volume. */
  const MinVolumeSurge: real := 1.0
  /** A symbol with fewer intraday bars than this is not analysed. */
  const MinAnalysisBars: nat := 50
  /** The swing stop looks at this many of the last bars. */
  const SwingBars: nat := 10
  /** The reward-to-risk ratio of a trading plan. */
  const PlanRewardRatio: real := 2.0

  /** The strategy's share of the trading configuration. */
  datatype StrategyConfig = StrategyConfig(riskPerTradePercent: real, stopLossAtrMultiplier: real)

  const DefaultStrategyConfig: StrategyConfig := StrategyConfig(1.0, 1.5)

  /** What a detector returns when every condition holds. */
  datatype Setup = Setup(side: Side, price: real, ema20: real, ema200: real, vwap: real, atr: Option<real>,
                         volumeSurge: real, pattern: LegacyIndicators.CandlePattern, strength: real,
                         quality: real)

  /** At or above a level for a BUY, at or below it for a SELL: the
      detectors only reject a close strictly on the wrong side. */
  predicate AtOrBeyond(side: Side, price: real, level: real)
  {
    if side == Buy then price >= level else price <= level
  }

  /** The reversal of the last bar. */
  function ReversalOf(rows: seq<Row>): LegacyIndicators.CandleReversal
  {
    LegacyIndicators.DetectReversalCandle(Candles(rows), -1)
  }

  /** The volume surge over the last SurgeLookback bars; never NaN, since
      the lookback is positive. */
  function SurgeOf(rows: seq<Row>): (r: real)
    ensures LegacyIndicators.VolumeSurge(Volumes(Candles(rows)), SurgeLookback) == Some(r)
  {
    LegacyIndicators.VolumeSurge(Volumes(Candles(rows)), SurgeLookback).value
  }

  /** Points for the distance from the 200 EMA: the signal engine's tiers,
      with a NaN EMA (every comparison false) worth the lowest tier. */
  function TrendPoints(price: real, ema200: Option<real>): (p: real)
    ensures p == 10.0 || p == 20.0 || p == 30.0
  {
    if ema200.None? then 10.0 else Signals.TrendPoints(price, ema200.value)
  }

  /** Points for the volume surge: over 2 gives 25, over 1.5 gives 20, over
      1.2 gives 15, over 1 gives 10, anything else nothing. */
  function SurgePoints(surge: real): (p: real)
    ensures 0.0 <= p <= 25.0
    ensures p == 0.0 <==> surge <= 1.0
  {
    if surge > 2.0 then 25.0
    else if surge > 1.5 then 20.0
    else if surge > 1.2 then 15.0
    else if surge > 1.0 then 10.0
    else 0.0
  }

  /** Points for trend consistency: 20 for a 3-period run of higher highs
      and higher lows (lower highs and lower lows for a SELL), 15 for a
      2-period one, otherwise nothing. */
  function ConsistencyPoints(bars: seq<Candle>, side: Side): (p: real)
    ensures side == Buy ==>
              (p == 20.0 <==> LegacyIndicators.IsHigherHighHigherLow(bars, 3)) &&
              (p == 15.0 <==> !LegacyIndicators.IsHigherHighHigherLow(bars, 3) &&
                              LegacyIndicators.IsHigherHighHigherLow(bars, 2))
    ensures side == Sell ==>
              (p == 20.0 <==> LegacyIndicators.IsLowerHighLowerLow(bars, 3)) &&
              (p == 15.0 <==> !LegacyIndicators.IsLowerHighLowerLow(bars, 3) &&
                              LegacyIndicators.IsLowerHighLowerLow(bars, 2))
    ensures p == 0.0 || p == 15.0 || p == 20.0
  {
    if side == Buy then
      if LegacyIndicators.IsHigherHighHigherLow(bars, 3) then 20.0
      else if LegacyIndicators.IsHigherHighHigherLow(bars, 2) then 15.0
      else 0.0
    else
      if LegacyIndicators.IsLowerHighLowerLow(bars, 3) then 20.0
      else if LegacyIndicators.IsLowerHighLowerLow(bars, 2) then 15.0
      else 0.0
  }

  /** TradingStrategy._calculate_setup_quality: trend, surge, pattern
      strength and consistency points, capped at 100. The cap never binds,
      since the parts add up to at most 97.5. */
  function SetupQuality(side: Side, rows: seq<Row>): (q: real)
    requires |rows| > 0
    ensures var last := rows[|rows| - 1];
            q == TrendPoints(last.bar.close, last.ema200) + SurgePoints(SurgeOf(rows)) +
                 ReversalOf(rows).strength * 25.0 + ConsistencyPoints(Candles(rows), side)
    ensures 10.0 <= q <= 97.5
  {
    var last := rows[|rows| - 1];
    var r := ReversalOf(rows);
    LegacyIndicators.ReversalShape(Candles(rows), -1);
    var score := TrendPoints(last.bar.close, last.ema200) + SurgePoints(SurgeOf(rows)) +
                 r.strength * 25.0 + ConsistencyPoints(Candles(rows), side);
    Min(score, 100.0)
  }

  /** A run of three periods is also a run of two, so a 3-period run is
      always worth the full 20 consistency points and never less. */
  lemma ConsistencyMonotone(bars: seq<Candle>, side: Side)
    ensures side == Buy && LegacyIndicators.IsHigherHighHigherLow(bars, 3) ==>
              LegacyIndicators.IsHigherHighHigherLow(bars, 2) && ConsistencyPoints(bars, side) == 20.0
    ensures side == Sell && LegacyIndicators.IsLowerHighLowerLow(bars, 3) ==>
              LegacyIndicators.IsLowerHighLowerLow(bars, 2) && ConsistencyPoints(bars, side) == 20.0
  {
    LegacyIndicators.TrendChecksShrink(bars, 3, 2);
  }

  /** Every condition of detect_buy_setup (side Buy) or detect_sell_setup
      (side Sell): at least five bars, the 20 EMA, 200 EMA and VWAP of the
      last bar defined, the close not on the wrong side of the 200 EMA or of
      the VWAP, within 0.5% of the 20 EMA or one of the last three bars
      touching it, a reversal of the side on the last bar, and at least
      average volume. */
  predicate SetupGates(rows: seq<Row>, side: Side)
  {
    |rows| >= MinSetupBars &&
    var last := rows[|rows| - 1];
    var price := last.bar.close;
    last.ema20.Some? && last.ema200.Some? && last.vwap.Some? &&
    AtOrBeyond(side, price, last.ema200.value) && AtOrBeyond(side, price, last.vwap.value) &&
    (WithinPctOf(price, last.ema20.value, PullbackPct) || TouchedRecently(rows)) &&
    ReversalOf(rows).kind == Signals.ExpectedKind(side) &&
    SurgeOf(rows) >= MinVolumeSurge
  }

  /** The setup built from the last bar once every condition holds. */
  function MakeSetup(rows: seq<Row>, side: Side): (s: Setup)
    requires |rows| > 0
    requires rows[|rows| - 1].ema20.Some? && rows[|rows| - 1].ema200.Some? && rows[|rows| - 1].vwap.Some?
  {
    var last := rows[|rows| - 1];
    var r := ReversalOf(rows);
    Setup(side, last.bar.close, last.ema20.value, last.ema200.value, last.vwap.value, last.atr,
          SurgeOf(rows), r.pattern, r.strength, SetupQuality(side, rows))
  }

  /** The setup a detector returns for a frame, None when a condition
      fails. */
  function SetupOf(rows: seq<Row>, side: Side): (s: Option<Setup>)
    ensures s.Some? <==> SetupGates(rows, side)
    ensures s.Some? ==>
              var last := rows[|rows| - 1];
              var st := s.value;
              st.side == side && st.price == last.bar.close && st.atr == last.atr &&
              last.ema20 == Some(st.ema20) && last.ema200 == Some(st.ema200) && last.vwap == Some(st.vwap) &&
              AtOrBeyond(side, st.price, st.ema200) && AtOrBeyond(side, st.price, st.vwap) &&
              st.volumeSurge >= MinVolumeSurge && st.quality == SetupQuality(side, rows)
    ensures s.Some? ==>
              var c := rows[|rows| - 1].bar;
              var st := s.value;
              st.pattern != LegacyIndicators.NoPattern && st.strength == LegacyIndicators.CandleStrength(st.pattern) &&
              (side == Buy ==> c.close > c.open) && (side == Sell ==> c.close < c.open)
  {
    if SetupGates(rows, side) then
      LegacyIndicators.ReversalShape(Candles(rows), -1);
      assert LegacyIndicators.CandleAt(Candles(rows), -1) == rows[|rows| - 1].bar;
      Some(MakeSetup(rows, side))
    else None
  }

  /** The detectors themselves, their conditions in the source's order, the
      EMA-touch loop run only when the close is not already near the 20
      EMA. */
  method DetectSetup(rows: seq<Row>, side: Side) returns (s: Option<Setup>)
    ensures s == SetupOf(rows, side)
  {
    if |rows| < MinSetupBars {
      return None;
    }
    var last := rows[|rows| - 1];
    if last.ema20.None? || last.ema200.None? || last.vwap.None? {
      return None;
    }
    var price := last.bar.close;
    if !AtOrBeyond(side, price, last.ema200.value) || !AtOrBeyond(side, price, last.vwap.value) {
      return None;
    }
    if !WithinPctOf(price, last.ema20.value, PullbackPct) {
      var touched := TouchedEma20(rows);
      if !touched {
        return None;
      }
    }
    var reversal := ReversalOf(rows);
    if reversal.kind != Signals.ExpectedKind(side) {
      return None;
    }
    var surge := SurgeOf(rows);
    if surge < MinVolumeSurge {
      return None;
    }
    s := Some(MakeSetup(rows, side));
  }

  /** A frame never has both a BUY and a SELL setup: although a close equal
      to both levels passes either direction, the last bar cannot be a
      bullish and a bearish reversal at once. */
  lemma SetupsExclusive(rows: seq<Row>)
    ensures !(SetupOf(rows, Buy).Some? && SetupOf(rows, Sell).Some?)
  {
  }

  /** A detected setup scores between 22.5 (lowest trend tier, no surge
      points, the weakest pattern, no consistency) and 97.5. */
  lemma DetectedQualityRange(rows: seq<Row>, side: Side)
    requires SetupOf(rows, side).Some?
    ensures 22.5 <= SetupOf(rows, side).value.quality <= 97.5
  {
    var st := SetupOf(rows, side).value;
    assert st.strength == ReversalOf(rows).strength;
    assert st.strength >= 0.5;
  }

  /** The uncapped sizing result: whole shares and the capital at risk. */
  datatype Sizing = Sizing(quantity: int, riskAmount: real)

  /** The risk percentage: the one given, else the configured one. */
  function RiskPercent(cfg: StrategyConfig, riskPct: Option<real>): real
  {
    if riskPct.Some? then riskPct.value else cfg.riskPerTradePercent
  }

  /** TradingStrategy.calculate_position_size: capital * risk% / 100 over
      the per-share distance to the stop, truncated to whole shares, with
      no cap on the position's value; (0, 0) for a stop at the entry. */
  function CalculatePositionSize(cfg: StrategyConfig, capital: real, entry: real, stopLoss: real,
                                 riskPct: Option<real>): (s: Sizing)
    ensures entry == stopLoss ==> s == Sizing(0, 0.0)
    ensures entry != stopLoss ==>
              s.riskAmount == capital * (RiskPercent(cfg, riskPct) / 100.0) &&
              s.quantity == Trunc(s.riskAmount / Abs(entry - stopLoss))
    ensures entry != stopLoss && s.riskAmount >= 0.0 ==>
              0 <= s.quantity &&
              s.quantity as real * Abs(entry - stopLoss) <= s.riskAmount &&
              s.riskAmount < (s.quantity + 1) as real * Abs(entry - stopLoss)
  {
    var riskAmount := capital * (RiskPercent(cfg, riskPct) / 100.0);
    var riskPerShare := Abs(entry - stopLoss);
    if riskPerShare == 0.0 then Sizing(0, 0.0)
    else
      var quantity := Trunc(riskAmount / riskPerShare);
      PositionSizing.TruncBelowQuotient(riskAmount, riskPerShare);
      MaxWholeShares(riskAmount, riskPerShare);
      Sizing(quantity, riskAmount)
  }

  /** One more share than the truncated quotient would risk more than the
      amount. */
  lemma MaxWholeShares(x: real, d: real)
    ensures x >= 0.0 && d > 0.0 ==> x < (Trunc(x / d) + 1) as real * d
  {
    if x >= 0.0 && d > 0.0 {
      var q := x / d;
      var n := Trunc(q);
      assert q >= 0.0;
      assert n as real <= q < n as real + 1.0;
      var gap := n as real + 1.0 - q;
      assert gap > 0.0;
      assert gap * d > 0.0;
      assert q * d == x;
      assert (n + 1) as real == q + gap;
      assert (q + gap) * d == q * d + gap * d;
    }
  }

  datatype StopMethod = AtrStop | SwingStop

  /** The ATR stop of a defined ATR: the multiple of the ATR below a BUY
      or above a SELL price, rounded to two decimals. */
  function AtrStopPrice(side: Side, price: real, atr: real, multiplier: real): (stop: real)
    ensures side == Buy ==> Abs(stop - (price - atr * multiplier)) <= 0.005
    ensures side == Sell ==> Abs(stop - (price + atr * multiplier)) <= 0.005
  {
    if side == Buy then Round2(price - atr * multiplier) else Round2(price + atr * multiplier)
  }

  /** The ATR stop; NaN (None) when the ATR is undefined. */
  function AtrStopLoss(side: Side, price: real, atr: Option<real>, multiplier: real): (stop: Option<real>)
    ensures stop.None? <==> atr.None?
    ensures stop.Some? ==> stop.value == AtrStopPrice(side, price, atr.value, multiplier)
  {
    if atr.None? then None else Some(AtrStopPrice(side, price, atr.value, multiplier))
  }

  /** The swing stop: 0.5% under the lowest low of the last ten bars for a
      BUY, 0.5% over the highest high for a SELL, rounded to two decimals;
      NaN (None) when there are no bars to take the extreme of. */
  function SwingStopLoss(side: Side, bars: seq<Candle>): (stop: Option<real>)
    ensures stop.None? <==> bars == []
    ensures stop.Some? && side == Buy ==>
              Abs(stop.value - MinOf(Lows(LastN(bars, SwingBars))) * 0.995) <= 0.005
    ensures stop.Some? && side == Sell ==>
              Abs(stop.value - MaxOf(Highs(LastN(bars, SwingBars))) * 1.005) <= 0.005
  {
    var recent := LastN(bars, SwingBars);
    if recent == [] then None
    else if side == Buy then Some(Round2(MinOf(Lows(recent)) * 0.995))
    else Some(Round2(MaxOf(Highs(recent)) * 1.005))
  }

  /** TradingStrategy.calculate_stop_loss with the given method. */
  function CalculateStopLoss(cfg: StrategyConfig, setup: Setup, bars: seq<Candle>, rule: StopMethod): (stop: Option<real>)
    ensures rule == AtrStop ==> stop == AtrStopLoss(setup.side, setup.price, setup.atr, cfg.stopLossAtrMultiplier)
    ensures rule == SwingStop ==> stop == SwingStopLoss(setup.side, bars)
  {
    match rule
    case AtrStop => AtrStopLoss(setup.side, setup.price, setup.atr, cfg.stopLossAtrMultiplier)
    case SwingStop => SwingStopLoss(setup.side, bars)
  }

  /** With a non-negative ATR multiple, the ATR stop of a price on the cent
      grid is on its risk side: at or below a BUY, at or above a SELL. */
  lemma AtrStopOnRiskSide(side: Side, price: real, cents: int, atr: real, multiplier: real)
    requires price == cents as real / 100.0 && atr * multiplier >= 0.0
    ensures var stop := AtrStopPrice(side, price, atr, multiplier);
            if side == Buy then stop <= price else stop >= price
  {
    if side == Buy {
      Round2Below(price - atr * multiplier, cents);
    } else {
      Round2Above(price + atr * multiplier, cents);
    }
  }

  /** A swing stop lies beyond every one of the last ten bars when their
      extreme is a non-negative price on the cent grid: at or below every
      low for a BUY, at or above every high for a SELL. */
  lemma SwingStopBeyondRecentBars(side: Side, bars: seq<Candle>, cents: int)
    requires bars != [] && cents >= 0
    requires var recent := LastN(bars, SwingBars);
             (if side == Buy then MinOf(Lows(recent)) else MaxOf(Highs(recent))) == cents as real / 100.0
    ensures var stop := SwingStopLoss(side, bars).value;
            var recent := LastN(bars, SwingBars);
            forall i :: 0 <= i < |recent| ==> if side == Buy then stop <= recent[i].low else stop >= recent[i].high
  {
    var recent := LastN(bars, SwingBars);
    var level := cents as real / 100.0;
    if side == Buy {
      Round2Below(level * 0.995, cents);
      assert forall i :: 0 <= i < |recent| ==> level <= Lows(recent)[i];
    } else {
      Round2Above(level * 1.005, cents);
      assert forall i :: 0 <= i < |recent| ==> Highs(recent)[i] <= level;
    }
  }

  /** TradingStrategy.calculate_target, rounded to two decimals: the
      distance to the stop times the ratio, added to a BUY price and taken
      off a SELL price. */
  function CalculateTarget(side: Side, entry: real, stopLoss: real, ratio: real): (target: real)
    ensures side == Buy ==> Abs(target - (entry + Abs(entry - stopLoss) * ratio)) <= 0.005
    ensures side == Sell ==> Abs(target - (entry - Abs(entry - stopLoss) * ratio)) <= 0.005
  {
    var reward := Abs(entry - stopLoss) * ratio;
    Round2(if side == Buy then entry + reward else entry - reward)
  }

  /** With a non-negative ratio the target of a price on the cent grid is
      on its reward side, whichever side of the price the stop is on. */
  lemma TargetOnRewardSide(side: Side, entry: real, cents: int, stopLoss: real, ratio: real)
    requires entry == cents as real / 100.0 && ratio >= 0.0
    ensures side == Buy ==> CalculateTarget(side, entry, stopLoss, ratio) >= entry
    ensures side == Sell ==> CalculateTarget(side, entry, stopLoss, ratio) <= entry
  {
    var reward := Abs(entry - stopLoss) * ratio;
    assert reward >= 0.0;
    if side == Buy {
      Round2Above(entry + reward, cents);
    } else {
      Round2Below(entry - reward, cents);
    }
  }

  /** A screener candidate as the scan sees it: the symbol, the gap fields
      it may carry, and its intraday bars with indicators attached. */
  datatype ScanCandidate = ScanCandidate(symbol: string, gapPct: Option<real>, alignedWithIndex: Option<bool>,
                                         data: seq<Row>)

  datatype TradingPlan = TradingPlan(symbol: string, side: Side, entry: real, stopLoss: Option<real>,
                                     target: Option<real>, riskRewardRatio: real, quality: real,
                                     atr: Option<real>, volumeSurge: real, pattern: LegacyIndicators.CandlePattern,
                                     ema20: real, ema200: real, vwap: real, gapPct: real, alignedWithIndex: bool)

  /** The setup analyze_stock_for_trading acts on: the BUY setup if there is
      one, else the SELL setup. */
  function ChosenSetup(rows: seq<Row>): (s: Option<Setup>)
    ensures s.Some? <==> SetupOf(rows, Buy).Some? || SetupOf(rows, Sell).Some?
    ensures s.Some? ==> s == SetupOf(rows, s.value.side)
  {
    if SetupOf(rows, Buy).Some? then SetupOf(rows, Buy) else SetupOf(rows, Sell)
  }

  /** The plan for a setup: an ATR stop, a target at twice the risk (NaN
      with the stop), and the candidate's gap fields, 0 and False when
      absent. */
  function PlanOf(cfg: StrategyConfig, c: ScanCandidate, st: Setup): TradingPlan
  {
    var stop := CalculateStopLoss(cfg, st, Candles(c.data), AtrStop);
    var target := if stop.None? then None else Some(CalculateTarget(st.side, st.price, stop.value, PlanRewardRatio));
    TradingPlan(c.symbol, st.side, st.price, stop, target, PlanRewardRatio, st.quality, st.atr, st.volumeSurge,
                st.pattern, st.ema20, st.ema200, st.vwap,
                if c.gapPct.Some? then c.gapPct.value else 0.0,
                c.alignedWithIndex == Some(true))
  }

  /** TradingStrategy.analyze_stock_for_trading for a candidate whose bars
      have been loaded: nothing for fewer than 50 bars or no setup;
      otherwise the plan of the chosen setup. */
  function AnalyzeStock(cfg: StrategyConfig, c: ScanCandidate): (p: Option<TradingPlan>)
    ensures p.Some? <==> |c.data| >= MinAnalysisBars && ChosenSetup(c.data).Some?
    ensures p.Some? ==>
              var st := ChosenSetup(c.data).value;
              p.value.symbol == c.symbol && p.value.side == st.side && p.value.entry == st.price &&
              p.value.quality == st.quality &&
              (p.value.side == Sell ==> SetupOf(c.data, Buy).None?) &&
              p.value.stopLoss == CalculateStopLoss(cfg, st, Candles(c.data), AtrStop) &&
              (p.value.target.Some? <==> p.value.stopLoss.Some?) &&
              (p.value.target.Some? ==>
                 p.value.target.value == CalculateTarget(st.side, st.price, p.value.stopLoss.value, PlanRewardRatio))
  {
    if |c.data| < MinAnalysisBars then None
    else
      match ChosenSetup(c.data)
      case None => None
      case Some(st) => Some(PlanOf(cfg, c, st))
  }

  function AnalyzeFn(cfg: StrategyConfig): ScanCandidate -> Option<TradingPlan>
  {
    c => AnalyzeStock(cfg, c)
  }

  /** Plans are ranked by setup quality alone. */
  function QualityKey(p: TradingPlan): SortKey
  {
    SortKey(p.quality, 0.0, 0.0)
  }

  /** TradingStrategy.scan_for_setups: one pass over the candidates that
      appends every plan found, then a stable sort by quality, highest
      first. */
  method ScanForSetups(cfg: StrategyConfig, candidates: seq<ScanCandidate>) returns (plans: seq<TradingPlan>)
    ensures plans == SortDesc(FilterMap(candidates, AnalyzeFn(cfg)), QualityKey)
  {
    var analyze := AnalyzeFn(cfg);
    plans := [];
    var i := 0;
    while i < |candidates|
      invariant 0 <= i <= |candidates|
      invariant plans == FilterMap(candidates[..i], analyze)
    {
      FilterMapStep(candidates, analyze, i);
      var plan := analyze(candidates[i]);
      plans := plans + OptionToSeq(plan);
      i := i + 1;
    }
    assert candidates[..i] == candidates;
    plans := SortDesc(plans, QualityKey);
  }

  /** The ranked plans are exactly the candidates' plans, each once, in
      descending quality with ties left in candidate order, every one with
      a quality between 22.5 and 97.5. */
  lemma ScannedPlans(cfg: StrategyConfig, candidates: seq<ScanCandidate>)
    ensures var found := FilterMap(candidates, AnalyzeFn(cfg));
            var ranked := SortDesc(found, QualityKey);
            SortedDesc(ranked, QualityKey) && multiset(ranked) == multiset(found) &&
            (forall k :: WithKey(ranked, QualityKey, k) == WithKey(found, QualityKey, k)) &&
            (forall y :: y in ranked <==> exists i :: 0 <= i < |candidates| && AnalyzeStock(cfg, candidates[i]) == Some(y)) &&
            (forall k :: 0 <= k < |ranked| ==> 22.5 <= ranked[k].quality <= 97.5)
  {
    var f := AnalyzeFn(cfg);
    var found := FilterMap(candidates, f);
    var ranked := SortDesc(found, QualityKey);
    SortDescCorrect(found, QualityKey);
    forall k {
      SortDescStable(found, QualityKey, k);
    }
    forall y
      ensures y in ranked <==> exists i :: 0 <= i < |candidates| && AnalyzeStock(cfg, candidates[i]) == Some(y)
    {
      SortDescMember(found, QualityKey, y);
      FilterMapMember(candidates, f, y);
    }
    forall k | 0 <= k < |ranked|
      ensures 22.5 <= ranked[k].quality <= 97.5
    {
      var y := ranked[k];
      SortDescMember(found, QualityKey, y);
      FilterMapMember(candidates, f, y);
      var i :| 0 <= i < |candidates| && AnalyzeStock(cfg, candidates[i]) == Some(y);
      var st := ChosenSetup(candidates[i].data).value;
      DetectedQualityRange(candidates[i].data, st.side);
    }
  }
}
