/** The pre-market screener: the index trend, then a gap filter, a
    liquidity filter, news tagging and a 0-100 score, ending in the top
    candidates by score. Each stage is a loop that appends the stocks it
    keeps, followed by a stable sort. */
module PreMarket {
  import opened Common
  import opened Bars
  import opened Sorting
  import Ema

  /** What the data loader has for one symbol on the screening day: the
      previous session's close (None when there is none), the minute bars
      and the daily bars in time order. A symbol without files has neither. */
  datatype Feed = Feed(prevClose: Option<real>, minute: seq<Candle>, daily: seq<Candle>)

  type Market = map<string, Feed>

  const EmptyFeed: Feed := Feed(None, [], [])

  function FeedOf(market: Market, symbol: string): Feed
  {
    if symbol in market then market[symbol] else EmptyFeed
  }

  /** One row of the news file: the calendar day, symbol, event type and
      description. */
  datatype NewsItem = NewsItem(day: int, symbol: string, eventType: string, description: string)

  datatype ScreenConfig = ScreenConfig(
    indices: seq<string>, indexEmaFast: nat, indexEmaSlow: nat,
    gapMin: real, gapMax: real,
    minAvgVolume: real, volumeLookbackDays: nat, minPreopenRatio: real,
    maxCandidates: nat)

  /** The configuration the screener can run with: a first index to read
      the trend from and EMA spans of at least 1 (pandas rejects a smaller
      span). */
  predicate ValidConfig(cfg: ScreenConfig)
  {
    |cfg.indices| > 0 && cfg.indexEmaFast >= 1 && cfg.indexEmaSlow >= 1
  }

  /** Daily bars read for the index trend. */
  const IndexLookbackDays: nat := 250
  /** Five-minute bars in a session: the average daily volume over this is
      the expected volume of one bar. */
  const BarsPerSession: real := 78.0

  // ---------------------------------------------------------------- index

  datatype IndexInfo = IndexInfo(trend: Ema.Trend, price: real, emaFast: Option<real>, emaSlow: Option<real>,
                                 changePct: Option<real>, yesterdayHigh: real, yesterdayLow: real)

  /** The EMA of the closes at the last of the bars. */
  function LastEma(bars: seq<Candle>, span: nat): Option<real>
    requires span >= 1 && bars != []
  {
    Ema.Calculate(Closes(bars), span)[|bars| - 1]
  }

  /** The context entry of one index: the trend of the last daily close
      against its fast and slow EMA, and the change from the close before
      (0 with a single bar, not a number after a zero close). */
  function IndexInfoOf(feed: Feed, cfg: ScreenConfig): (info: Option<IndexInfo>)
    requires ValidConfig(cfg)
    ensures info.None? <==> feed.daily == []
    ensures info.Some? ==>
              var daily := LastN(feed.daily, IndexLookbackDays);
              var last := daily[|daily| - 1];
              info.value.price == last.close &&
              info.value.emaFast == LastEma(daily, cfg.indexEmaFast) &&
              info.value.emaSlow == LastEma(daily, cfg.indexEmaSlow) &&
              info.value.trend == Ema.GetTrend(last.close, info.value.emaFast, info.value.emaSlow) &&
              info.value.yesterdayHigh == last.high && info.value.yesterdayLow == last.low &&
              (|daily| == 1 ==> info.value.changePct == Some(0.0)) &&
              (|daily| >= 2 ==> info.value.changePct == PercentOf(last.close - daily[|daily| - 2].close, daily[|daily| - 2].close))
  {
    var daily := LastN(feed.daily, IndexLookbackDays);
    if daily == [] then None
    else
      var n := |daily|;
      var fast := LastEma(daily, cfg.indexEmaFast);
      var slow := LastEma(daily, cfg.indexEmaSlow);
      var price := daily[n - 1].close;
      var change := if n >= 2 then PercentOf(price - daily[n - 2].close, daily[n - 2].close) else Some(0.0);
      Some(IndexInfo(Ema.GetTrend(price, fast, slow), price, fast, slow, change, daily[n - 1].high, daily[n - 1].low))
  }

  /** The index context built from the given indices in order: the entry of
      every one with daily data. */
  function IndexContextOf(indices: seq<string>, market: Market, cfg: ScreenConfig): map<string, IndexInfo>
    requires ValidConfig(cfg)
  {
    if indices == [] then map[]
    else
      var context := IndexContextOf(indices[..|indices| - 1], market, cfg);
      var symbol := indices[|indices| - 1];
      match IndexInfoOf(FeedOf(market, symbol), cfg)
      case None => context
      case Some(info) => context[symbol := info]
  }

  /** PreMarketScreener.get_index_context: one entry per configured index
      with daily data. */
  method GetIndexContext(market: Market, cfg: ScreenConfig) returns (context: map<string, IndexInfo>)
    requires ValidConfig(cfg)
    ensures forall s :: s in context <==> s in cfg.indices && IndexInfoOf(FeedOf(market, s), cfg).Some?
    ensures forall s :: s in context ==> Some(context[s]) == IndexInfoOf(FeedOf(market, s), cfg)
    ensures context == IndexContextOf(cfg.indices, market, cfg)
  {
    context := map[];
    var i := 0;
    while i < |cfg.indices|
      invariant 0 <= i <= |cfg.indices|
      invariant forall s :: s in context <==> s in cfg.indices[..i] && IndexInfoOf(FeedOf(market, s), cfg).Some?
      invariant forall s :: s in context ==> Some(context[s]) == IndexInfoOf(FeedOf(market, s), cfg)
      invariant context == IndexContextOf(cfg.indices[..i], market, cfg)
    {
      var symbol := cfg.indices[i];
      assert cfg.indices[..i + 1] == cfg.indices[..i] + [symbol];
      var info := IndexInfoOf(FeedOf(market, symbol), cfg);
      if info.Some? {
        context := context[symbol := info.value];
      }
      i := i + 1;
    }
    assert cfg.indices[..i] == cfg.indices;
  }

  /** The trend of the first configured index, sideways when it has no entry. */
  function IndexTrend(context: map<string, IndexInfo>, cfg: ScreenConfig): (t: Ema.Trend)
    requires ValidConfig(cfg)
    ensures cfg.indices[0] !in context ==> t == Ema.Sideways
    ensures cfg.indices[0] in context ==> t == context[cfg.indices[0]].trend
  {
    if cfg.indices[0] in context then context[cfg.indices[0]].trend else Ema.Sideways
  }

  // ------------------------------------------------------------------ gap

  datatype GapStock = GapStock(symbol: string, price: real, prevClose: real, gapPct: real,
                               gapUp: bool, aligned: bool)

  /** A gap is aligned with the index when it goes the index trend's way. */
  predicate Aligned(trend: Ema.Trend, gapUp: bool)
  {
    (trend == Ema.Uptrend && gapUp) || (trend == Ema.Downtrend && !gapUp)
  }

  /** The first close of the 9:00 to 9:30 window of the day. */
  function OpeningPrice(feed: Feed, day: int): (p: Option<real>)
    ensures p.None? <==> Window(feed.minute, day, ClockTime(9, 0), ClockTime(9, 30)) == []
    ensures p.Some? ==> p.value == Window(feed.minute, day, ClockTime(9, 0), ClockTime(9, 30))[0].close
  {
    var window := Window(feed.minute, day, ClockTime(9, 0), ClockTime(9, 30));
    if window == [] then None else Some(window[0].close)
  }

  /** The gap in percent of the previous close: None without a previous
      close or an opening price, and for a zero previous close, where the
      division gives inf or NaN. */
  function GapPctOf(feed: Feed, day: int): (gap: Option<real>)
    ensures gap.Some? <==> feed.prevClose.Some? && OpeningPrice(feed, day).Some? && feed.prevClose.value != 0.0
    ensures gap.Some? ==>
              gap == PercentOf(OpeningPrice(feed, day).value - feed.prevClose.value, feed.prevClose.value)
  {
    match feed.prevClose
    case None => None
    case Some(prevClose) =>
      match OpeningPrice(feed, day)
      case None => None
      case Some(price) => PercentOf(price - prevClose, prevClose)
  }

  /** The gap stage's verdict on one symbol: kept exactly when its gap
      exists and its size lies in [gapMin, gapMax] (inf and NaN fail that
      test); a gap up is one that opens above a positive previous close. */
  function GapStockOf(symbol: string, market: Market, day: int, cfg: ScreenConfig, trend: Ema.Trend): (g: Option<GapStock>)
    ensures var gap := GapPctOf(FeedOf(market, symbol), day);
            g.Some? <==> gap.Some? && cfg.gapMin <= Abs(gap.value) <= cfg.gapMax
    ensures g.Some? ==>
              var feed := FeedOf(market, symbol);
              g.value.symbol == symbol && Some(g.value.gapPct) == GapPctOf(feed, day) &&
              Some(g.value.price) == OpeningPrice(feed, day) && Some(g.value.prevClose) == feed.prevClose &&
              (g.value.gapUp <==> g.value.gapPct > 0.0) &&
              (g.value.prevClose > 0.0 ==> (g.value.gapUp <==> g.value.price > g.value.prevClose)) &&
              (g.value.aligned <==> Aligned(trend, g.value.gapUp))
  {
    var feed := FeedOf(market, symbol);
    match GapPctOf(feed, day)
    case None => None
    case Some(gap) =>
      if cfg.gapMin <= Abs(gap) <= cfg.gapMax then
        var up := gap > 0.0;
        Some(GapStock(symbol, OpeningPrice(feed, day).value, feed.prevClose.value, gap, up, Aligned(trend, up)))
      else None
  }

  function GapStockFn(market: Market, day: int, cfg: ScreenConfig, trend: Ema.Trend): string -> Option<GapStock>
  {
    s => GapStockOf(s, market, day, cfg, trend)
  }

  /** Aligned gaps first, then larger absolute gaps. */
  function GapKey(g: GapStock): SortKey
  {
    SortKey(BoolKey(g.aligned), Abs(g.gapPct), 0.0)
  }

  /** PreMarketScreener.apply_gap_filter. */
  method ApplyGapFilter(symbols: seq<string>, market: Market, day: int, cfg: ScreenConfig, trend: Ema.Trend)
    returns (gapStocks: seq<GapStock>)
    ensures gapStocks == SortDesc(FilterMap(symbols, GapStockFn(market, day, cfg, trend)), GapKey)
  {
    var verdict := GapStockFn(market, day, cfg, trend);
    gapStocks := [];
    var i := 0;
    while i < |symbols|
      invariant 0 <= i <= |symbols|
      invariant gapStocks == FilterMap(symbols[..i], verdict)
    {
      FilterMapStep(symbols, verdict, i);
      var found := verdict(symbols[i]);
      gapStocks := gapStocks + OptionToSeq(found);
      i := i + 1;
    }
    assert symbols[..i] == symbols;
    gapStocks := SortDesc(gapStocks, GapKey);
  }

  /** In the gap stage's output every stock aligned with the index comes
      before every stock that is not. */
  lemma AlignedGapsFirst(gs: seq<GapStock>, i: nat, j: nat)
    requires i < j < |SortDesc(gs, GapKey)|
    requires SortDesc(gs, GapKey)[j].aligned
    ensures SortDesc(gs, GapKey)[i].aligned
  {
    SortDescCorrect(gs, GapKey);
    var out := SortDesc(gs, GapKey);
    assert KeyGeq(GapKey(out[i]), GapKey(out[j]));
  }

  // ------------------------------------------------------------ liquidity

  /** volumeRatio is None where the expected bar volume is 0 and the ratio
      is not a finite number. */
  datatype LiquidStock = LiquidStock(gap: GapStock, avgVolume: real, preopenVolume: real,
                                     volumeRatio: Option<real>)

  /** The pre-open volume ratio test. A zero expected volume makes the
      ratio inf (passes) when volume traded, NaN or -inf (fails) otherwise. */
  predicate RatioPasses(ratio: Option<real>, preopenVolume: real, minRatio: real)
  {
    match ratio
    case Some(r) => r >= minRatio
    case None => preopenVolume > 0.0
  }

  /** Mean daily volume over the last lookback days; None without daily data. */
  function AvgDailyVolume(feed: Feed, lookback: nat): (avg: Option<real>)
    ensures avg.None? <==> LastN(feed.daily, lookback) == []
    ensures avg.Some? ==> avg.value == Mean(Volumes(LastN(feed.daily, lookback)))
  {
    var daily := LastN(feed.daily, lookback);
    if daily == [] then None else Some(Mean(Volumes(daily)))
  }

  /** Volume traded from 9:00 to 9:20. */
  function PreopenVolume(feed: Feed, day: int): real
  {
    Sum(Volumes(Window(feed.minute, day, ClockTime(9, 0), ClockTime(9, 20))))
  }

  /** The pre-open volume against the expected volume of a single bar: 0
      without pre-open bars, not a finite number when the average is 0. */
  function PreopenRatio(feed: Feed, day: int, avg: real): (ratio: Option<real>)
    ensures Window(feed.minute, day, ClockTime(9, 0), ClockTime(9, 20)) == [] ==> ratio == Some(0.0)
    ensures Window(feed.minute, day, ClockTime(9, 0), ClockTime(9, 20)) != [] ==>
              (ratio.None? <==> avg == 0.0) &&
              (ratio.Some? ==> ratio.value * (avg / BarsPerSession) == PreopenVolume(feed, day))
  {
    if Window(feed.minute, day, ClockTime(9, 0), ClockTime(9, 20)) == [] then Some(0.0)
    else if avg == 0.0 then None
    else
      var perBar := avg / BarsPerSession;
      var volume := PreopenVolume(feed, day);
      assert perBar != 0.0;
      assert volume / perBar * perBar == volume;
      Some(volume / perBar)
  }

  /** The liquidity stage's verdict: kept exactly when the mean daily volume
      reaches minAvgVolume and either the pre-open ratio passes or the mean
      is over twice the minimum. */
  function LiquidStockOf(g: GapStock, market: Market, day: int, cfg: ScreenConfig): (l: Option<LiquidStock>)
    ensures var feed := FeedOf(market, g.symbol);
            var avg := AvgDailyVolume(feed, cfg.volumeLookbackDays);
            l.Some? <==>
              avg.Some? && avg.value >= cfg.minAvgVolume &&
              (RatioPasses(PreopenRatio(feed, day, avg.value), PreopenVolume(feed, day), cfg.minPreopenRatio) ||
               avg.value > cfg.minAvgVolume * 2.0)
    ensures l.Some? ==>
              var feed := FeedOf(market, g.symbol);
              l.value.gap == g && Some(l.value.avgVolume) == AvgDailyVolume(feed, cfg.volumeLookbackDays) &&
              l.value.avgVolume >= cfg.minAvgVolume &&
              l.value.preopenVolume == PreopenVolume(feed, day) &&
              l.value.volumeRatio == PreopenRatio(feed, day, l.value.avgVolume)
  {
    var feed := FeedOf(market, g.symbol);
    match AvgDailyVolume(feed, cfg.volumeLookbackDays)
    case None => None
    case Some(avg) =>
      if avg < cfg.minAvgVolume then None
      else
        var pre := PreopenVolume(feed, day);
        var ratio := PreopenRatio(feed, day, avg);
        if RatioPasses(ratio, pre, cfg.minPreopenRatio) || avg > cfg.minAvgVolume * 2.0 then
          Some(LiquidStock(g, avg, pre, ratio))
        else None
  }

  function LiquidStockFn(market: Market, day: int, cfg: ScreenConfig): GapStock -> Option<LiquidStock>
  {
    g => LiquidStockOf(g, market, day, cfg)
  }

  function LiquidKey(l: LiquidStock): SortKey
  {
    SortKey(l.avgVolume, 0.0, 0.0)
  }

  /** PreMarketScreener.apply_liquidity_filter. */
  method ApplyLiquidityFilter(stocks: seq<GapStock>, market: Market, day: int, cfg: ScreenConfig)
    returns (liquid: seq<LiquidStock>)
    ensures liquid == SortDesc(FilterMap(stocks, LiquidStockFn(market, day, cfg)), LiquidKey)
  {
    var verdict := LiquidStockFn(market, day, cfg);
    liquid := [];
    var i := 0;
    while i < |stocks|
      invariant 0 <= i <= |stocks|
      invariant liquid == FilterMap(stocks[..i], verdict)
    {
      FilterMapStep(stocks, verdict, i);
      var found := verdict(stocks[i]);
      liquid := liquid + OptionToSeq(found);
      i := i + 1;
    }
    assert stocks[..i] == stocks;
    liquid := SortDesc(liquid, LiquidKey);
  }

  // ----------------------------------------------------------------- news

  datatype NewsStock = NewsStock(liquid: LiquidStock, hasNews: bool, newsType: Option<string>,
                                 newsDescription: Option<string>)

  /** Position of the first row of the news file for the symbol on the day,
      |items| when there is none. */
  function FirstNewsIndex(items: seq<NewsItem>, day: int, symbol: string): (k: nat)
    ensures k <= |items|
    ensures forall j :: 0 <= j < k ==> !(items[j].day == day && items[j].symbol == symbol)
    ensures k < |items| ==> items[k].day == day && items[k].symbol == symbol
  {
    if items == [] then 0
    else if items[0].day == day && items[0].symbol == symbol then 0
    else
      var k := FirstNewsIndex(items[1..], day, symbol);
      assert forall j :: 1 <= j < |items| ==> items[j] == items[1..][j - 1];
      k + 1
  }

  /** The first row of the news file for the symbol on the day. */
  function FirstNews(items: seq<NewsItem>, day: int, symbol: string): (r: Option<NewsItem>)
    ensures r.None? <==> forall k :: 0 <= k < |items| ==> !(items[k].day == day && items[k].symbol == symbol)
    ensures r.Some? ==> r.value.day == day && r.value.symbol == symbol
    ensures r.Some? ==> var k := FirstNewsIndex(items, day, symbol); k < |items| && items[k] == r.value
  {
    var k := FirstNewsIndex(items, day, symbol);
    if k < |items| then Some(items[k]) else None
  }

  /** The tag one stock gets: news of that day for it, or none at all when
      no news file is configured (news == None) or the file is empty. */
  function NewsTag(l: LiquidStock, news: Option<seq<NewsItem>>, day: int): (n: NewsStock)
    ensures n.liquid == l
    ensures n.hasNews <==> news.Some? && FirstNews(news.value, day, l.gap.symbol).Some?
    ensures n.hasNews ==> n.newsType == Some(FirstNews(news.value, day, l.gap.symbol).value.eventType) &&
                          n.newsDescription == Some(FirstNews(news.value, day, l.gap.symbol).value.description)
    ensures !n.hasNews ==> n.newsType == None && n.newsDescription == None
  {
    match news
    case None => NewsStock(l, false, None, None)
    case Some(items) =>
      if items == [] then NewsStock(l, false, None, None)
      else match FirstNews(items, day, l.gap.symbol)
        case None => NewsStock(l, false, None, None)
        case Some(item) => NewsStock(l, true, Some(item.eventType), Some(item.description))
  }

  /** PreMarketScreener.apply_news_filter: annotates, never drops or
      reorders. */
  method ApplyNewsFilter(stocks: seq<LiquidStock>, news: Option<seq<NewsItem>>, day: int)
    returns (tagged: seq<NewsStock>)
    ensures |tagged| == |stocks|
    ensures forall i :: 0 <= i < |stocks| ==> tagged[i] == NewsTag(stocks[i], news, day)
  {
    tagged := [];
    if news.None? || news.value == [] {
      var i := 0;
      while i < |stocks|
        invariant 0 <= i <= |stocks| && |tagged| == i
        invariant forall k :: 0 <= k < i ==> tagged[k] == NewsTag(stocks[k], news, day)
      {
        tagged := tagged + [NewsStock(stocks[i], false, None, None)];
        i := i + 1;
      }
      return;
    }
    var items := news.value;
    var i := 0;
    while i < |stocks|
      invariant 0 <= i <= |stocks| && |tagged| == i
      invariant forall k :: 0 <= k < i ==> tagged[k] == NewsTag(stocks[k], news, day)
    {
      var item := FirstNews(items, day, stocks[i].gap.symbol);
      if item.Some? {
        tagged := tagged + [NewsStock(stocks[i], true, Some(item.value.eventType), Some(item.value.description))];
      } else {
        tagged := tagged + [NewsStock(stocks[i], false, None, None)];
      }
      i := i + 1;
    }
  }

  /** Without a news file, or with an empty one, no stock has news. */
  lemma NoNewsTagsNothing(l: LiquidStock, news: Option<seq<NewsItem>>, day: int)
    requires news.None? || news.value == []
    ensures !NewsTag(l, news, day).hasNews && NewsTag(l, news, day).newsType == None
  {
  }

  // ---------------------------------------------------------------- score

  datatype ScoredStock = ScoredStock(stock: NewsStock, score: real)

  /** Up to 30 points for the gap, in proportion up to a 2% gap. */
  function GapPoints(gapPct: real): (p: real)
    ensures 0.0 <= p <= 30.0
  {
    Min(Abs(gapPct) / 2.0 * 30.0, 30.0)
  }

  function LiquidityPoints(avgVolume: real): (p: real)
    ensures 5.0 <= p <= 25.0
  {
    if avgVolume > 10000000.0 then 25.0
    else if avgVolume > 5000000.0 then 20.0
    else if avgVolume > 1000000.0 then 15.0
    else if avgVolume > 500000.0 then 10.0
    else 5.0
  }

  /** 20 points for an earnings or results event, 10 for any other news. */
  function NewsPoints(n: NewsStock): (p: real)
    ensures 0.0 <= p <= 20.0
    ensures p == 0.0 <==> !n.hasNews
  {
    if !n.hasNews then 0.0
    else if n.newsType == Some("earnings") || n.newsType == Some("results") then 20.0
    else 10.0
  }

  /** The score before rounding to two decimals. */
  function RawScore(n: NewsStock): real
  {
    GapPoints(n.liquid.gap.gapPct) + (if n.liquid.gap.aligned then 25.0 else 0.0) +
    LiquidityPoints(n.liquid.avgVolume) + NewsPoints(n)
  }

  /** The score of score_candidates: within [5, 100], and within half a cent
      of the sum of the four parts. */
  function CandidateScore(n: NewsStock): (score: real)
    ensures 5.0 <= score <= 100.0
    ensures Abs(score - RawScore(n)) <= 0.005
  {
    var raw := RawScore(n);
    Round2Above(raw, 500);
    Round2Below(raw, 10000);
    Round2(raw)
  }

  /** PreMarketScreener.score_candidates: attaches a score to each stock. */
  method ScoreCandidates(stocks: seq<NewsStock>) returns (scored: seq<ScoredStock>)
    ensures |scored| == |stocks|
    ensures forall i :: 0 <= i < |stocks| ==> scored[i] == ScoredStock(stocks[i], CandidateScore(stocks[i]))
  {
    scored := [];
    var i := 0;
    while i < |stocks|
      invariant 0 <= i <= |stocks| && |scored| == i
      invariant forall k :: 0 <= k < i ==> scored[k] == ScoredStock(stocks[k], CandidateScore(stocks[k]))
    {
      scored := scored + [ScoredStock(stocks[i], CandidateScore(stocks[i]))];
      i := i + 1;
    }
  }

  function CandidateKey(s: ScoredStock): SortKey
  {
    SortKey(s.score, 0.0, 0.0)
  }

  // ------------------------------------------------------------ screening

  function Tagged(stocks: seq<LiquidStock>, news: Option<seq<NewsItem>>, day: int): (r: seq<NewsStock>)
    ensures |r| == |stocks|
    ensures forall i :: 0 <= i < |r| ==> r[i] == NewsTag(stocks[i], news, day)
  {
    seq(|stocks|, i requires 0 <= i < |stocks| => NewsTag(stocks[i], news, day))
  }

  function Scored(stocks: seq<NewsStock>): (r: seq<ScoredStock>)
    ensures |r| == |stocks|
    ensures forall i :: 0 <= i < |r| ==> r[i] == ScoredStock(stocks[i], CandidateScore(stocks[i]))
  {
    seq(|stocks|, i requires 0 <= i < |stocks| => ScoredStock(stocks[i], CandidateScore(stocks[i])))
  }

  /** The candidates run_screening selects from a given index context. */
  function Screening(symbols: seq<string>, market: Market, day: int, news: Option<seq<NewsItem>>,
                     cfg: ScreenConfig, trend: Ema.Trend): seq<ScoredStock>
  {
    var gaps := SortDesc(FilterMap(symbols, GapStockFn(market, day, cfg, trend)), GapKey);
    if gaps == [] then []
    else
      var liquid := SortDesc(FilterMap(gaps, LiquidStockFn(market, day, cfg)), LiquidKey);
      if liquid == [] then []
      else Take(SortDesc(Scored(Tagged(liquid, news, day)), CandidateKey), cfg.maxCandidates)
  }

  /** PreMarketScreener.run_screening. */
  method RunScreening(symbols: seq<string>, market: Market, day: int, news: Option<seq<NewsItem>>, cfg: ScreenConfig)
    returns (candidates: seq<ScoredStock>)
    requires ValidConfig(cfg)
    ensures candidates == Screening(symbols, market, day, news, cfg, IndexTrend(IndexContextOf(cfg.indices, market, cfg), cfg))
  {
    var context := GetIndexContext(market, cfg);
    var trend := IndexTrend(context, cfg);
    var gaps := ApplyGapFilter(symbols, market, day, cfg, trend);
    if gaps == [] {
      return [];
    }
    var liquid := ApplyLiquidityFilter(gaps, market, day, cfg);
    if liquid == [] {
      return [];
    }
    var tagged := ApplyNewsFilter(liquid, news, day);
    assert tagged == Tagged(liquid, news, day);
    var scored := ScoreCandidates(tagged);
    assert scored == Scored(tagged);
    candidates := Take(SortDesc(scored, CandidateKey), cfg.maxCandidates);
  }

  /** Every stock out of the gap stage is one whose own verdict keeps it. */
  lemma GapSurvivor(symbols: seq<string>, market: Market, day: int, cfg: ScreenConfig, trend: Ema.Trend, g: GapStock)
    requires g in SortDesc(FilterMap(symbols, GapStockFn(market, day, cfg, trend)), GapKey)
    ensures g.symbol in symbols && GapStockOf(g.symbol, market, day, cfg, trend) == Some(g)
  {
    SortDescMember(FilterMap(symbols, GapStockFn(market, day, cfg, trend)), GapKey, g);
    FilterMapMember(symbols, GapStockFn(market, day, cfg, trend), g);
  }

  /** Every stock out of the liquidity stage is a gap stock it was given,
      kept by its own verdict. */
  lemma LiquidSurvivor(gaps: seq<GapStock>, market: Market, day: int, cfg: ScreenConfig, l: LiquidStock)
    requires l in SortDesc(FilterMap(gaps, LiquidStockFn(market, day, cfg)), LiquidKey)
    ensures l.gap in gaps && LiquidStockOf(l.gap, market, day, cfg) == Some(l)
  {
    SortDescMember(FilterMap(gaps, LiquidStockFn(market, day, cfg)), LiquidKey, l);
    FilterMapMember(gaps, LiquidStockFn(market, day, cfg), l);
  }

  /** At most maxCandidates candidates, in descending score, each scored in
      [5, 100]; none at all when no symbol passes the gap stage. */
  lemma ScreeningShape(symbols: seq<string>, market: Market, day: int, news: Option<seq<NewsItem>>,
                       cfg: ScreenConfig, trend: Ema.Trend)
    ensures var out := Screening(symbols, market, day, news, cfg, trend);
            |out| <= cfg.maxCandidates && SortedDesc(out, CandidateKey) &&
            forall k :: 0 <= k < |out| ==> 5.0 <= out[k].score <= 100.0
    ensures FilterMap(symbols, GapStockFn(market, day, cfg, trend)) == [] ==>
              Screening(symbols, market, day, news, cfg, trend) == []
  {
    var gaps0 := FilterMap(symbols, GapStockFn(market, day, cfg, trend));
    SortDescCorrect(gaps0, GapKey);
    var gaps := SortDesc(gaps0, GapKey);
    if gaps != [] {
      var liquid := SortDesc(FilterMap(gaps, LiquidStockFn(market, day, cfg)), LiquidKey);
      if liquid != [] {
        var scored := Scored(Tagged(liquid, news, day));
        SortDescCorrect(scored, CandidateKey);
        var ranked := SortDesc(scored, CandidateKey);
        var out := Take(ranked, cfg.maxCandidates);
        forall k | 0 <= k < |out|
          ensures 5.0 <= out[k].score <= 100.0
        {
          SortDescMember(scored, CandidateKey, out[k]);
        }
        forall i, j | 0 <= i < j < |out|
          ensures KeyGeq(CandidateKey(out[i]), CandidateKey(out[j]))
        {
          assert out[i] == ranked[i] && out[j] == ranked[j];
        }
      }
    }
  }

  /** Every candidate is a stock of the universe that passed both the gap
      and the liquidity stage, tagged with its news. */
  lemma ScreeningProvenance(symbols: seq<string>, market: Market, day: int, news: Option<seq<NewsItem>>,
                            cfg: ScreenConfig, trend: Ema.Trend, k: nat)
    requires k < |Screening(symbols, market, day, news, cfg, trend)|
    ensures var c := Screening(symbols, market, day, news, cfg, trend)[k];
            var l := c.stock.liquid;
            l.gap.symbol in symbols &&
            GapStockOf(l.gap.symbol, market, day, cfg, trend) == Some(l.gap) &&
            LiquidStockOf(l.gap, market, day, cfg) == Some(l) &&
            c.stock == NewsTag(l, news, day) && c.score == CandidateScore(c.stock)
  {
    var gaps := SortDesc(FilterMap(symbols, GapStockFn(market, day, cfg, trend)), GapKey);
    var liquid := SortDesc(FilterMap(gaps, LiquidStockFn(market, day, cfg)), LiquidKey);
    var scored := Scored(Tagged(liquid, news, day));
    var c := Screening(symbols, market, day, news, cfg, trend)[k];
    assert c == SortDesc(scored, CandidateKey)[k];
    SortDescMember(scored, CandidateKey, c);
    var i :| 0 <= i < |scored| && scored[i] == c;
    assert liquid[i] in liquid;
    LiquidSurvivor(gaps, market, day, cfg, liquid[i]);
    GapSurvivor(symbols, market, day, cfg, trend, liquid[i].gap);
  }
}
