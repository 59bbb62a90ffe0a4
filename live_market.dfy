/** The live-market filter: after the open it keeps the pre-market
    candidates whose five-minute chart shows a clear trend, then those with
    a volume surge and enough range, tags each with the key price level it
    is nearest to, and ranks them by trend strength and volume. */
module LiveMarket {
  import opened Common
  import opened Bars
  import opened Sorting
  import Ema
  import Vwap
  import Atr
  import PreMarket
  import Signals

  datatype LiveConfig = LiveConfig(emaFast: nat, emaSlow: nat, volumeLookback: nat, minVolumeRatio: real,
                                   minRangePct: real, proximityPct: real, maxCandidates: nat)

  /** Period of the ATR column attached to the live frame. */
  const AtrPeriod: nat := 14
  /** Daily bars read for yesterday's high and low. */
  const YesterdayLookbackDays: nat := 5

  function SymbolOf(c: PreMarket.ScoredStock): string
  {
    c.stock.liquid.gap.symbol
  }

  // ---------------------------------------------------------------- trend

  /** The bars of the session, 9:15 to 15:30. */
  function SessionBars(feed: PreMarket.Feed, day: int): seq<Candle>
  {
    Window(feed.minute, day, ClockTime(9, 15), ClockTime(15, 30))
  }

  /** The session bars with the ema_20, ema_200, vwap and atr columns. */
  function IndicatorFrame(bars: seq<Candle>, cfg: LiveConfig): (f: Frame)
    requires cfg.emaFast >= 1 && cfg.emaSlow >= 1
    ensures f.indicatorColumns && |f.rows| == |bars|
    ensures forall i :: 0 <= i < |bars| ==>
              f.rows[i] == Row(bars[i], Ema.Calculate(Closes(bars), cfg.emaFast)[i],
                               Ema.Calculate(Closes(bars), cfg.emaSlow)[i],
                               Vwap.Calculate(bars)[i], Atr.Calculate(bars, AtrPeriod)[i])
  {
    var fast := Ema.Calculate(Closes(bars), cfg.emaFast);
    var slow := Ema.Calculate(Closes(bars), cfg.emaSlow);
    var vwap := Vwap.Calculate(bars);
    var atr := Atr.Calculate(bars, AtrPeriod);
    Frame(seq(|bars|, i requires 0 <= i < |bars| => Row(bars[i], fast[i], slow[i], vwap[i], atr[i])), true)
  }

  /** A clear trend: the price above both the slow EMA and VWAP is bullish,
      below both bearish, anything else mixed (None). */
  function LiveTrend(price: real, ema200: real, vwap: real): (t: Option<Bias>)
    ensures t == Some(Bullish) <==> price > ema200 && price > vwap
    ensures t == Some(Bearish) <==> price < ema200 && price < vwap
  {
    if price > ema200 && price > vwap then Some(Bullish)
    else if price < ema200 && price < vwap then Some(Bearish)
    else None
  }

  /** The distance from the slow EMA in percent of it. A zero EMA makes the
      float division give +inf, since the distance is then positive. */
  datatype Strength = Finite(pct: real) | Infinite

  function StrengthOf(distance: real, ema200: real): (s: Strength)
    ensures s.Infinite? <==> ema200 == 0.0
    ensures s.Finite? ==> s.pct * ema200 == distance * 100.0
    ensures s.Finite? && ema200 > 0.0 && distance > 0.0 ==> s.pct > 0.0
  {
    if ema200 == 0.0 then Infinite else Finite(distance / ema200 * 100.0)
  }

  datatype TrendStock = TrendStock(candidate: PreMarket.ScoredStock, trend: Bias, strength: Strength,
                                   price: real, ema20: Option<real>, ema200: real, vwap: real,
                                   atr: Option<real>, data: Frame)

  /** The session has enough bars for the slow EMA, and both spans are at
      least 1 (pandas raises for a smaller span and the candidate is skipped). */
  predicate Classifiable(bars: seq<Candle>, cfg: LiveConfig)
  {
    bars != [] && |bars| >= cfg.emaSlow && cfg.emaFast >= 1 && cfg.emaSlow >= 1
  }

  /** The indicator row of the last session bar. */
  function LastRow(bars: seq<Candle>, cfg: LiveConfig): Row
    requires Classifiable(bars, cfg)
  {
    IndicatorFrame(bars, cfg).rows[|bars| - 1]
  }

  /** The trend read off the last row: dropped with a NaN slow EMA or VWAP
      or with a mixed trend; the strength is measured in the trend's
      direction. */
  function TrendOfRow(c: PreMarket.ScoredStock, last: Row, data: Frame): (t: Option<TrendStock>)
    ensures t.Some? <==>
              last.ema200.Some? && last.vwap.Some? && LiveTrend(last.bar.close, last.ema200.value, last.vwap.value).Some?
    ensures t.Some? ==>
              t.value.candidate == c && t.value.data == data &&
              t.value.price == last.bar.close && last.ema200 == Some(t.value.ema200) &&
              last.vwap == Some(t.value.vwap) && t.value.ema20 == last.ema20 && t.value.atr == last.atr &&
              Some(t.value.trend) == LiveTrend(t.value.price, t.value.ema200, t.value.vwap) &&
              (t.value.trend == Bullish ==> t.value.strength == StrengthOf(t.value.price - t.value.ema200, t.value.ema200)) &&
              (t.value.trend == Bearish ==> t.value.strength == StrengthOf(t.value.ema200 - t.value.price, t.value.ema200))
  {
    if last.ema200.None? || last.vwap.None? then None
    else
      var price, ema200, vwap := last.bar.close, last.ema200.value, last.vwap.value;
      match LiveTrend(price, ema200, vwap)
      case None => None
      case Some(trend) =>
        var strength := if trend == Bullish then StrengthOf(price - ema200, ema200)
                        else StrengthOf(ema200 - price, ema200);
        Some(TrendStock(c, trend, strength, price, last.ema20, ema200, vwap, last.atr, data))
  }

  /** The trend stage's verdict on one candidate: its session bars must be
      classifiable, and the last row must show a clear trend. */
  function TrendStockOf(c: PreMarket.ScoredStock, market: PreMarket.Market, day: int, cfg: LiveConfig): Option<TrendStock>
  {
    var bars := SessionBars(PreMarket.FeedOf(market, SymbolOf(c)), day);
    if !Classifiable(bars, cfg) then None
    else TrendOfRow(c, LastRow(bars, cfg), IndicatorFrame(bars, cfg))
  }

  /** A kept candidate's strength is never negative on a positive EMA: the
      trend filter only measures in the direction of the trend. */
  lemma TrendStrengthPositive(c: PreMarket.ScoredStock, market: PreMarket.Market, day: int, cfg: LiveConfig)
    requires TrendStockOf(c, market, day, cfg).Some?
    ensures var t := TrendStockOf(c, market, day, cfg).value;
            t.ema200 > 0.0 ==> t.strength.Finite? && t.strength.pct > 0.0
  {
    var t := TrendStockOf(c, market, day, cfg).value;
    if t.trend == Bullish {
      assert t.price - t.ema200 > 0.0;
    } else {
      assert t.ema200 - t.price > 0.0;
    }
  }

  function TrendStockFn(market: PreMarket.Market, day: int, cfg: LiveConfig): PreMarket.ScoredStock -> Option<TrendStock>
  {
    c => TrendStockOf(c, market, day, cfg)
  }

  /** LiveMarketFilter.apply_trend_filter. */
  method ApplyTrendFilter(candidates: seq<PreMarket.ScoredStock>, market: PreMarket.Market, day: int, cfg: LiveConfig)
    returns (trendStocks: seq<TrendStock>)
    ensures trendStocks == FilterMap(candidates, TrendStockFn(market, day, cfg))
  {
    var verdict := TrendStockFn(market, day, cfg);
    trendStocks := [];
    var i := 0;
    while i < |candidates|
      invariant 0 <= i <= |candidates|
      invariant trendStocks == FilterMap(candidates[..i], verdict)
    {
      FilterMapStep(candidates, verdict, i);
      var found := verdict(candidates[i]);
      trendStocks := trendStocks + OptionToSeq(found);
      i := i + 1;
    }
    assert candidates[..i] == candidates;
  }

  // --------------------------------------------------------- volume/range

  /** rangePct is None where the price is 0 and the percentage is not a
      finite number. */
  datatype RangeStock = RangeStock(trend: TrendStock, volumeRatio: real, rangePct: Option<real>,
                                   todayHigh: real, todayLow: real)

  /** The day's range in percent of the price; None at price 0. */
  function RangePct(high: real, low: real, price: real): (r: Option<real>)
    ensures r.None? <==> price == 0.0
    ensures r.Some? ==> r.value * price == (high - low) * 100.0
  {
    if price == 0.0 then None else Some((high - low) / price * 100.0)
  }

  /** The range test. At price 0 a positive range is +inf and passes; a zero
      range is NaN and a negative one -inf, and both fail. */
  predicate RangePasses(rangePct: Option<real>, high: real, low: real, minRangePct: real)
  {
    match rangePct
    case Some(r) => r >= minRangePct
    case None => high - low > 0.0
  }

  /** The volume and range stage's verdict: the last bar's volume against
      the lookback bars before it reaches minVolumeRatio, and the range of
      the whole session reaches minRangePct. An empty frame has a NaN range
      and fails. */
  function RangeStockOf(t: TrendStock, cfg: LiveConfig): (r: Option<RangeStock>)
    ensures r.Some? ==>
              var bars := Candles(t.data.rows);
              bars != [] && r.value.trend == t &&
              r.value.volumeRatio == TrailingVolumeRatio(Volumes(bars), cfg.volumeLookback) &&
              r.value.volumeRatio >= cfg.minVolumeRatio &&
              (forall i :: 0 <= i < |bars| ==> r.value.todayLow <= bars[i].low && bars[i].high <= r.value.todayHigh) &&
              (exists i :: 0 <= i < |bars| && bars[i].high == r.value.todayHigh) &&
              (exists i :: 0 <= i < |bars| && bars[i].low == r.value.todayLow) &&
              r.value.rangePct == RangePct(r.value.todayHigh, r.value.todayLow, t.price) &&
              RangePasses(r.value.rangePct, r.value.todayHigh, r.value.todayLow, cfg.minRangePct)
    ensures r.None? ==>
              var bars := Candles(t.data.rows);
              bars == [] || TrailingVolumeRatio(Volumes(bars), cfg.volumeLookback) < cfg.minVolumeRatio ||
              !RangePasses(RangePct(MaxOf(Highs(bars)), MinOf(Lows(bars)), t.price),
                           MaxOf(Highs(bars)), MinOf(Lows(bars)), cfg.minRangePct)
  {
    var bars := Candles(t.data.rows);
    if bars == [] then None
    else
      var ratio := TrailingVolumeRatio(Volumes(bars), cfg.volumeLookback);
      var high := MaxOf(Highs(bars));
      var low := MinOf(Lows(bars));
      var pct := RangePct(high, low, t.price);
      if ratio >= cfg.minVolumeRatio && RangePasses(pct, high, low, cfg.minRangePct) then
        Some(RangeStock(t, ratio, pct, high, low))
      else None
  }

  function RangeStockFn(cfg: LiveConfig): TrendStock -> Option<RangeStock>
  {
    t => RangeStockOf(t, cfg)
  }

  /** LiveMarketFilter.apply_volume_range_filter. */
  method ApplyVolumeRangeFilter(stocks: seq<TrendStock>, cfg: LiveConfig) returns (filtered: seq<RangeStock>)
    ensures filtered == FilterMap(stocks, RangeStockFn(cfg))
  {
    var verdict := RangeStockFn(cfg);
    filtered := [];
    var i := 0;
    while i < |stocks|
      invariant 0 <= i <= |stocks|
      invariant filtered == FilterMap(stocks[..i], verdict)
    {
      FilterMapStep(stocks, verdict, i);
      var found := verdict(stocks[i]);
      filtered := filtered + OptionToSeq(found);
      i := i + 1;
    }
    assert stocks[..i] == stocks;
  }

  // ------------------------------------------------------------- location

  /** The high of the opening range, the first three bars (or all there
      are); NaN (None) on an empty frame. */
  function OpeningHigh(bars: seq<Candle>): (h: Option<real>)
    ensures h.None? <==> bars == []
    ensures h.Some? ==> (forall i :: 0 <= i < |bars| && i < 3 ==> bars[i].high <= h.value) &&
                        exists i :: 0 <= i < |bars| && i < 3 && bars[i].high == h.value
  {
    if bars == [] then None else Some(MaxOf(Highs(Take(bars, 3))))
  }

  function OpeningLow(bars: seq<Candle>): (l: Option<real>)
    ensures l.None? <==> bars == []
    ensures l.Some? ==> (forall i :: 0 <= i < |bars| && i < 3 ==> l.value <= bars[i].low) &&
                        exists i :: 0 <= i < |bars| && i < 3 && bars[i].low == l.value
  {
    if bars == [] then None else Some(MinOf(Lows(Take(bars, 3))))
  }

  /** Yesterday's high: the high of the second-to-last of the last five
      daily bars, 2% above the price without two daily bars. */
  function YesterdayHigh(feed: PreMarket.Feed, price: real): (h: real)
    ensures var daily := LastN(feed.daily, YesterdayLookbackDays);
            (|daily| >= 2 ==> h == daily[|daily| - 2].high) && (|daily| < 2 ==> h == price * 1.02)
  {
    var daily := LastN(feed.daily, YesterdayLookbackDays);
    if |daily| >= 2 then daily[|daily| - 2].high else price * 1.02
  }

  /** Yesterday's low, 2% below the price without two daily bars. */
  function YesterdayLow(feed: PreMarket.Feed, price: real): (l: real)
    ensures var daily := LastN(feed.daily, YesterdayLookbackDays);
            (|daily| >= 2 ==> l == daily[|daily| - 2].low) && (|daily| < 2 ==> l == price * 0.98)
  {
    var daily := LastN(feed.daily, YesterdayLookbackDays);
    if |daily| >= 2 then daily[|daily| - 2].low else price * 0.98
  }

  /** a stands out from b: higher for a swing high, lower for a swing low. */
  predicate Beyond(a: real, b: real, high: bool)
  {
    if high then a > b else a < b
  }

  /** Bar i is a swing point: strictly beyond the two bars on each side. */
  predicate IsSwing(xs: seq<real>, i: int, high: bool)
  {
    2 <= i < |xs| - 2 &&
    Beyond(xs[i], xs[i - 1], high) && Beyond(xs[i], xs[i - 2], high) &&
    Beyond(xs[i], xs[i + 1], high) && Beyond(xs[i], xs[i + 2], high)
  }

  /** The values of the swing points among the first n bars, in order. */
  function Swings(xs: seq<real>, n: nat, high: bool): (r: seq<real>)
    requires n <= |xs|
    ensures |r| <= n
  {
    if n == 0 then [] else Swings(xs, n - 1, high) + (if IsSwing(xs, n - 1, high) then [xs[n - 1]] else [])
  }

  /** A value is among the swings exactly when some swing point has it. */
  lemma {:induction false} SwingsMember(xs: seq<real>, n: nat, high: bool, v: real)
    requires n <= |xs|
    ensures v in Swings(xs, n, high) <==> exists i :: 0 <= i < n && IsSwing(xs, i, high) && xs[i] == v
    decreases n
  {
    if n > 0 {
      SwingsMember(xs, n - 1, high, v);
    }
  }

  /** Two swing points of the same kind are at least three bars apart. */
  lemma SwingsSpaced(xs: seq<real>, i: int, j: int, high: bool)
    requires IsSwing(xs, i, high) && IsSwing(xs, j, high) && i < j
    ensures j - i >= 3
  {
  }

  /** The loop over bars 2 .. n-3 collecting swing highs and swing lows, run
      only on frames of at least five bars. */
  method FindSwings(highs: seq<real>, lows: seq<real>) returns (swingHighs: seq<real>, swingLows: seq<real>)
    ensures swingHighs == Swings(highs, |highs|, true)
    ensures swingLows == Swings(lows, |lows|, false)
    requires |highs| == |lows|
  {
    swingHighs, swingLows := [], [];
    var n := |highs|;
    if n < 5 {
      SwingsNone(highs, n, true);
      SwingsNone(lows, n, false);
      return;
    }
    SwingsNone(highs, 2, true);
    SwingsNone(lows, 2, false);
    var i := 2;
    while i < n - 2
      invariant 2 <= i <= n - 2
      invariant swingHighs == Swings(highs, i, true)
      invariant swingLows == Swings(lows, i, false)
    {
      if highs[i] > highs[i - 1] && highs[i] > highs[i - 2] && highs[i] > highs[i + 1] && highs[i] > highs[i + 2] {
        swingHighs := swingHighs + [highs[i]];
      }
      if lows[i] < lows[i - 1] && lows[i] < lows[i - 2] && lows[i] < lows[i + 1] && lows[i] < lows[i + 2] {
        swingLows := swingLows + [lows[i]];
      }
      i := i + 1;
    }
    SwingsTail(highs, n - 2, true);
    SwingsTail(lows, n - 2, false);
  }

  /** No bar before index 2 is a swing point. */
  lemma {:induction false} SwingsNone(xs: seq<real>, n: nat, high: bool)
    requires n <= |xs| && (n <= 2 || |xs| < 5)
    ensures Swings(xs, n, high) == []
    decreases n
  {
    if n > 0 {
      SwingsNone(xs, n - 1, high);
    }
  }

  /** Neither of the last two bars is a swing point. */
  lemma SwingsTail(xs: seq<real>, n: nat, high: bool)
    requires 2 <= n && n + 2 == |xs|
    ensures Swings(xs, |xs|, high) == Swings(xs, n, high)
  {
    assert !IsSwing(xs, n + 1, high) && !IsSwing(xs, n, high);
  }

  datatype LevelName = YesterdayHighLevel | YesterdayLowLevel | OpeningRangeHighLevel | OpeningRangeLowLevel
                     | SwingHighLevel | SwingLowLevel

  /** A key level; None is a NaN level (the opening range of an empty frame). */
  datatype Level = Level(name: LevelName, price: Option<real>)

  function AsLevels(xs: seq<real>, name: LevelName): (r: seq<Level>)
    ensures |r| == |xs|
    ensures forall i :: 0 <= i < |r| ==> r[i] == Level(name, Some(xs[i]))
  {
    seq(|xs|, i requires 0 <= i < |xs| => Level(name, Some(xs[i])))
  }

  /** Yesterday's high and low, the opening range high and low, then the
      last three swing highs and the last three swing lows. */
  function KeyLevels(yHigh: real, yLow: real, oHigh: Option<real>, oLow: Option<real>,
                     swingHighs: seq<real>, swingLows: seq<real>): (r: seq<Level>)
    ensures 4 <= |r| <= 10
    ensures r[..4] == [Level(YesterdayHighLevel, Some(yHigh)), Level(YesterdayLowLevel, Some(yLow)),
                       Level(OpeningRangeHighLevel, oHigh), Level(OpeningRangeLowLevel, oLow)]
  {
    [Level(YesterdayHighLevel, Some(yHigh)), Level(YesterdayLowLevel, Some(yLow)),
     Level(OpeningRangeHighLevel, oHigh), Level(OpeningRangeLowLevel, oLow)] +
    AsLevels(LastN(swingHighs, 3), SwingHighLevel) + AsLevels(LastN(swingLows, 3), SwingLowLevel)
  }

  /** Distance of a level from the price in percent of the price; None where
      the float result is inf or NaN (price 0, or a NaN level), which never
      passes the proximity test. */
  function LevelDistance(price: real, level: Option<real>): (d: Option<real>)
    ensures d.None? <==> price == 0.0 || level.None?
    ensures d.Some? ==> d.value >= 0.0 && d.value * Abs(price) == Abs(price - level.value) * 100.0
  {
    if price == 0.0 || level.None? then None
    else
      var q := (price - level.value) / price;
      assert q * price == price - level.value;
      assert Abs(q) * Abs(price) == Abs(price - level.value);
      Some(Abs(q) * 100.0)
  }

  predicate Near(d: Option<real>, proximityPct: real)
  {
    d.Some? && d.value <= proximityPct
  }

  datatype NearLevel = NearLevel(name: LevelName, price: real, distance: real)

  /** One turn of the proximity loop: a level within proximityPct that is
      strictly nearer than the best so far replaces it. */
  function NearStep(best: Option<NearLevel>, l: Level, price: real, proximityPct: real): Option<NearLevel>
  {
    var d := LevelDistance(price, l.price);
    if Near(d, proximityPct) && (best.None? || d.value < best.value.distance) then
      Some(NearLevel(l.name, l.price.value, d.value))
    else best
  }

  /** The outcome of the proximity loop over the levels. */
  function Nearest(levels: seq<Level>, price: real, proximityPct: real): Option<NearLevel>
  {
    if levels == [] then None
    else NearStep(Nearest(levels[..|levels| - 1], price, proximityPct), levels[|levels| - 1], price, proximityPct)
  }

  /** The proximity loop finds no level exactly when none of the levels is
      within proximityPct. */
  lemma {:induction false} NearestNone(levels: seq<Level>, price: real, proximityPct: real)
    ensures Nearest(levels, price, proximityPct).None? <==>
              forall k :: 0 <= k < |levels| ==> !Near(LevelDistance(price, levels[k].price), proximityPct)
    decreases |levels|
  {
    if levels != [] {
      var init := levels[..|levels| - 1];
      var last := |levels| - 1;
      NearestNone(init, price, proximityPct);
      assert forall j :: 0 <= j < last ==> levels[j] == init[j];
      var prev := Nearest(init, price, proximityPct);
      if prev.Some? {
        var k :| 0 <= k < |init| && Near(LevelDistance(price, init[k].price), proximityPct);
        assert levels[k] == init[k];
      }
    }
  }

  /** A level the proximity loop finds is within proximityPct and no
      farther than any level within proximityPct. */
  lemma {:induction false} NearestMinimal(levels: seq<Level>, price: real, proximityPct: real)
    ensures var n := Nearest(levels, price, proximityPct);
            n.Some? ==>
              n.value.distance <= proximityPct &&
              forall j :: 0 <= j < |levels| && Near(LevelDistance(price, levels[j].price), proximityPct) ==>
                            n.value.distance <= LevelDistance(price, levels[j].price).value
    decreases |levels|
  {
    if levels != [] {
      var init := levels[..|levels| - 1];
      var last := |levels| - 1;
      NearestMinimal(init, price, proximityPct);
      NearestNone(init, price, proximityPct);
      assert forall j :: 0 <= j < last ==> levels[j] == init[j];
    }
  }

  /** A level the proximity loop finds is one of the levels, within
      proximityPct, and strictly nearer than every earlier level within
      proximityPct: of equally near levels the first is kept. */
  lemma {:induction false} NearestWitness(levels: seq<Level>, price: real, proximityPct: real)
    ensures var n := Nearest(levels, price, proximityPct);
            n.Some? ==>
              exists k :: 0 <= k < |levels| && Near(LevelDistance(price, levels[k].price), proximityPct) &&
                          n.value == NearLevel(levels[k].name, levels[k].price.value, LevelDistance(price, levels[k].price).value) &&
                          (forall j :: 0 <= j < k && Near(LevelDistance(price, levels[j].price), proximityPct) ==>
                                         n.value.distance < LevelDistance(price, levels[j].price).value)
    decreases |levels|
  {
    if levels != [] {
      var init := levels[..|levels| - 1];
      var last := |levels| - 1;
      NearestWitness(init, price, proximityPct);
      assert forall j :: 0 <= j < last ==> levels[j] == init[j];
      var prev := Nearest(init, price, proximityPct);
      var d := LevelDistance(price, levels[last].price);
      if Near(d, proximityPct) && (prev.None? || d.value < prev.value.distance) {
        NearestMinimal(init, price, proximityPct);
        NearestNone(init, price, proximityPct);
        assert Nearest(levels, price, proximityPct).value ==
               NearLevel(levels[last].name, levels[last].price.value, d.value);
      } else if prev.Some? {
        var k :| 0 <= k < |init| && Near(LevelDistance(price, init[k].price), proximityPct) &&
                 prev.value == NearLevel(init[k].name, init[k].price.value, LevelDistance(price, init[k].price).value) &&
                 (forall j :: 0 <= j < k && Near(LevelDistance(price, init[j].price), proximityPct) ==>
                                prev.value.distance < LevelDistance(price, init[j].price).value);
        assert levels[k] == init[k];
      }
    }
  }

  /** The proximity loop. minDistance None stands for the initial inf. */
  method NearestLevel(levels: seq<Level>, price: real, proximityPct: real) returns (near: Option<NearLevel>)
    ensures near == Nearest(levels, price, proximityPct)
  {
    near := None;
    var minDistance: Option<real> := None;
    var i := 0;
    while i < |levels|
      invariant 0 <= i <= |levels|
      invariant near == Nearest(levels[..i], price, proximityPct)
      invariant minDistance == if near.None? then None else Some(near.value.distance)
    {
      assert levels[..i + 1][..i] == levels[..i];
      var distance := LevelDistance(price, levels[i].price);
      if distance.Some? && distance.value <= proximityPct && (minDistance.None? || distance.value < minDistance.value) {
        minDistance := distance;
        near := Some(NearLevel(levels[i].name, levels[i].price.value, distance.value));
      }
      i := i + 1;
    }
    assert levels[..i] == levels;
  }

  datatype LocatedStock = LocatedStock(range: RangeStock, openingHigh: Option<real>, openingLow: Option<real>,
                                       yesterdayHigh: real, yesterdayLow: real, nearLevel: Option<NearLevel>)

  /** The key levels of one stock. */
  function LevelsOf(r: RangeStock, market: PreMarket.Market): seq<Level>
  {
    var bars := Candles(r.trend.data.rows);
    var feed := PreMarket.FeedOf(market, SymbolOf(r.trend.candidate));
    KeyLevels(YesterdayHigh(feed, r.trend.price), YesterdayLow(feed, r.trend.price),
              OpeningHigh(bars), OpeningLow(bars),
              Swings(Highs(bars), |bars|, true), Swings(Lows(bars), |bars|, false))
  }

  /** The location stage annotates a stock and never drops it. */
  function LocationOf(r: RangeStock, market: PreMarket.Market, cfg: LiveConfig): (l: LocatedStock)
    ensures l.range == r
  {
    var bars := Candles(r.trend.data.rows);
    var feed := PreMarket.FeedOf(market, SymbolOf(r.trend.candidate));
    LocatedStock(r, OpeningHigh(bars), OpeningLow(bars),
                 YesterdayHigh(feed, r.trend.price), YesterdayLow(feed, r.trend.price),
                 Nearest(LevelsOf(r, market), r.trend.price, cfg.proximityPct))
  }

  /** The located stock carries its opening range and, as nearest level, a
      key level within proximity no farther than any other such level, or
      none exactly when no key level is within proximity. */
  lemma LocatedNearest(r: RangeStock, market: PreMarket.Market, cfg: LiveConfig)
    ensures var l := LocationOf(r, market, cfg);
            var bars := Candles(r.trend.data.rows);
            l.openingHigh == OpeningHigh(bars) && l.openingLow == OpeningLow(bars)
    ensures var l := LocationOf(r, market, cfg);
            var levels := LevelsOf(r, market);
            l.nearLevel.None? <==>
              forall k :: 0 <= k < |levels| ==> !Near(LevelDistance(r.trend.price, levels[k].price), cfg.proximityPct)
    ensures var l := LocationOf(r, market, cfg);
            var levels := LevelsOf(r, market);
            l.nearLevel.Some? ==>
              l.nearLevel.value.distance <= cfg.proximityPct &&
              forall j :: 0 <= j < |levels| && Near(LevelDistance(r.trend.price, levels[j].price), cfg.proximityPct) ==>
                l.nearLevel.value.distance <= LevelDistance(r.trend.price, levels[j].price).value
  {
    NearestNone(LevelsOf(r, market), r.trend.price, cfg.proximityPct);
    NearestMinimal(LevelsOf(r, market), r.trend.price, cfg.proximityPct);
  }

  /** One turn of the location loop: the key levels of the stock and the
      nearest of them. */
  method LocateStock(stock: RangeStock, market: PreMarket.Market, cfg: LiveConfig) returns (l: LocatedStock)
    ensures l == LocationOf(stock, market, cfg)
  {
    var price := stock.trend.price;
    var bars := Candles(stock.trend.data.rows);
    var openingHigh, openingLow := OpeningHigh(bars), OpeningLow(bars);
    var feed := PreMarket.FeedOf(market, SymbolOf(stock.trend.candidate));
    var yesterdayHigh, yesterdayLow := YesterdayHigh(feed, price), YesterdayLow(feed, price);
    var swingHighs, swingLows := FindSwings(Highs(bars), Lows(bars));
    var levels := KeyLevels(yesterdayHigh, yesterdayLow, openingHigh, openingLow, swingHighs, swingLows);
    assert levels == LevelsOf(stock, market);
    var near := NearestLevel(levels, price, cfg.proximityPct);
    l := LocatedStock(stock, openingHigh, openingLow, yesterdayHigh, yesterdayLow, near);
  }

  /** LiveMarketFilter.apply_location_filter. */
  method ApplyLocationFilter(stocks: seq<RangeStock>, market: PreMarket.Market, cfg: LiveConfig)
    returns (located: seq<LocatedStock>)
    ensures |located| == |stocks|
    ensures forall i :: 0 <= i < |stocks| ==> located[i] == LocationOf(stocks[i], market, cfg)
  {
    located := [];
    var i := 0;
    while i < |stocks|
      invariant 0 <= i <= |stocks| && |located| == i
      invariant forall k :: 0 <= k < i ==> located[k] == LocationOf(stocks[k], market, cfg)
    {
      var l := LocateStock(stocks[i], market, cfg);
      located := located + [l];
      i := i + 1;
    }
  }

  // ------------------------------------------------------------ filtering

  /** Stronger trends first, an infinite strength above every finite one,
      then the higher volume ratio. */
  function FinalKey(l: LocatedStock): SortKey
  {
    var s := l.range.trend.strength;
    SortKey(BoolKey(s.Infinite?), if s.Finite? then s.pct else 0.0, l.range.volumeRatio)
  }

  /** The stocks run_filtering selects. */
  function Filtering(candidates: seq<PreMarket.ScoredStock>, market: PreMarket.Market, day: int, cfg: LiveConfig): seq<LocatedStock>
  {
    var trend := FilterMap(candidates, TrendStockFn(market, day, cfg));
    if candidates == [] || trend == [] then []
    else
      var ranged := FilterMap(trend, RangeStockFn(cfg));
      if ranged == [] then []
      else Take(SortDesc(Located(ranged, market, cfg), FinalKey), cfg.maxCandidates)
  }

  function Located(stocks: seq<RangeStock>, market: PreMarket.Market, cfg: LiveConfig): (r: seq<LocatedStock>)
    ensures |r| == |stocks|
    ensures forall i :: 0 <= i < |r| ==> r[i] == LocationOf(stocks[i], market, cfg)
  {
    seq(|stocks|, i requires 0 <= i < |stocks| => LocationOf(stocks[i], market, cfg))
  }

  /** LiveMarketFilter.run_filtering. */
  method RunFiltering(candidates: seq<PreMarket.ScoredStock>, market: PreMarket.Market, day: int, cfg: LiveConfig)
    returns (finalStocks: seq<LocatedStock>)
    ensures finalStocks == Filtering(candidates, market, day, cfg)
  {
    if candidates == [] {
      return [];
    }
    var trendStocks := ApplyTrendFilter(candidates, market, day, cfg);
    if trendStocks == [] {
      return [];
    }
    var ranged := ApplyVolumeRangeFilter(trendStocks, cfg);
    if ranged == [] {
      return [];
    }
    var located := ApplyLocationFilter(ranged, market, cfg);
    assert located == Located(ranged, market, cfg);
    finalStocks := Take(SortDesc(located, FinalKey), cfg.maxCandidates);
  }

  /** A stock out of the trend stage is a candidate the trend verdict kept. */
  lemma TrendSurvivor(candidates: seq<PreMarket.ScoredStock>, market: PreMarket.Market, day: int, cfg: LiveConfig,
                      t: TrendStock)
    requires t in FilterMap(candidates, TrendStockFn(market, day, cfg))
    ensures t.candidate in candidates
    ensures TrendStockOf(t.candidate, market, day, cfg) == Some(t)
  {
    FilterMapMember(candidates, TrendStockFn(market, day, cfg), t);
    var i :| 0 <= i < |candidates| && TrendStockFn(market, day, cfg)(candidates[i]) == Some(t);
    assert TrendStockOf(candidates[i], market, day, cfg) == Some(t);
  }

  /** A stock out of the volume and range stage is a trend stock the volume
      and range verdict kept. */
  lemma VolumeRangeSurvivor(stocks: seq<TrendStock>, cfg: LiveConfig, r: RangeStock)
    requires r in FilterMap(stocks, RangeStockFn(cfg))
    ensures r.trend in stocks
    ensures RangeStockOf(r.trend, cfg) == Some(r)
  {
    FilterMapMember(stocks, RangeStockFn(cfg), r);
    var j :| 0 <= j < |stocks| && RangeStockFn(cfg)(stocks[j]) == Some(r);
    assert RangeStockOf(stocks[j], cfg) == Some(r);
  }

  /** A stock out of the volume and range stage is one of the candidates,
      kept by both the trend verdict and the volume and range verdict. */
  lemma RangeSurvivor(candidates: seq<PreMarket.ScoredStock>, market: PreMarket.Market, day: int, cfg: LiveConfig,
                      r: RangeStock)
    requires r in FilterMap(FilterMap(candidates, TrendStockFn(market, day, cfg)), RangeStockFn(cfg))
    ensures r.trend.candidate in candidates
    ensures TrendStockOf(r.trend.candidate, market, day, cfg) == Some(r.trend)
    ensures RangeStockOf(r.trend, cfg) == Some(r)
  {
    VolumeRangeSurvivor(FilterMap(candidates, TrendStockFn(market, day, cfg)), cfg, r);
    TrendSurvivor(candidates, market, day, cfg, r.trend);
  }

  /** Every final stock is a candidate with a clear trend that passed the
      volume and range gate, annotated by the location stage. */
  lemma FilteringProvenance(candidates: seq<PreMarket.ScoredStock>, market: PreMarket.Market, day: int,
                            cfg: LiveConfig, k: nat)
    requires k < |Filtering(candidates, market, day, cfg)|
    ensures var l := Filtering(candidates, market, day, cfg)[k];
            l.range.trend.candidate in candidates &&
            TrendStockOf(l.range.trend.candidate, market, day, cfg) == Some(l.range.trend) &&
            RangeStockOf(l.range.trend, cfg) == Some(l.range) &&
            l == LocationOf(l.range, market, cfg)
  {
    var trend := FilterMap(candidates, TrendStockFn(market, day, cfg));
    var ranged := FilterMap(trend, RangeStockFn(cfg));
    var located := Located(ranged, market, cfg);
    var l := Filtering(candidates, market, day, cfg)[k];
    assert l == SortDesc(located, FinalKey)[k];
    SortDescMember(located, FinalKey, l);
    var i :| 0 <= i < |located| && located[i] == l;
    assert ranged[i] in ranged;
    RangeSurvivor(candidates, market, day, cfg, ranged[i]);
  }

  /** At most maxCandidates final stocks, ranked by strength and then volume
      ratio. */
  lemma FilteringRanked(candidates: seq<PreMarket.ScoredStock>, market: PreMarket.Market, day: int, cfg: LiveConfig)
    ensures |Filtering(candidates, market, day, cfg)| <= cfg.maxCandidates
    ensures SortedDesc(Filtering(candidates, market, day, cfg), FinalKey)
  {
    var trend := FilterMap(candidates, TrendStockFn(market, day, cfg));
    var ranged := FilterMap(trend, RangeStockFn(cfg));
    if candidates != [] && trend != [] && ranged != [] {
      var located := Located(ranged, market, cfg);
      var sorted := SortDesc(located, FinalKey);
      SortDescCorrect(located, FinalKey);
      var out := Take(sorted, cfg.maxCandidates);
      forall i, j | 0 <= i < j < |out|
        ensures KeyGeq(FinalKey(out[i]), FinalKey(out[j]))
      {
        assert out[i] == sorted[i] && out[j] == sorted[j];
      }
    }
  }

  /** Bridges a final stock to the signal generator: its frame and trend. */
  function SignalCandidateOf(l: LocatedStock): Signals.SignalCandidate
  {
    Signals.SignalCandidate(SymbolOf(l.range.trend.candidate), Some(l.range.trend.data), Some(l.range.trend.trend))
  }
}
