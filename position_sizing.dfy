/** Fixed-fractional position sizing with a 20% cap, signal validation, and
    the production risk manager: an append-only ledger of trades that go from
    open to closed once, with capital, daily and loss-streak counters that
    gate new trades. */
module PositionSizing {
  import opened Common
  import opened Ledger

  /** Defaults of the risk configuration. */
  const DefaultRiskPercent: real := 1.0
  const DefaultMaxTradesPerDay: int := 3
  const DefaultMaxConsecutiveLosses: int := 2

  /** No position may be worth more than this fraction of capital. */
  const MaxPositionFraction: real := 0.2
  /** Trading stops once capital falls below this fraction of the initial. */
  const MinCapitalFraction: real := 0.2

  /** The outcome of sizing. ZeroRisk is the zero-quantity result with the
      invalid-stop message; SizingFault is the capped branch at an entry of 0,
      where int() of the division by zero raises. */
  datatype Position =
    | ZeroRisk
    | Sized(quantity: int, riskAmount: real, positionValue: real, riskPerShare: real, riskPercent: real)
    | SizingFault

  /** Truncating a quotient by a positive divisor never overshoots it. */
  lemma TruncBelowQuotient(x: real, d: real)
    ensures x >= 0.0 && d > 0.0 ==> 0 <= Trunc(x / d) && Trunc(x / d) as real * d <= x
  {
    if x >= 0.0 && d > 0.0 {
      var q := Trunc(x / d) as real;
      assert q <= x / d;
      assert q * d <= (x / d) * d;
    }
  }

  /** A quantity whose value fits under the cap, when the uncapped one's did
      not, is smaller and risks less. */
  lemma CapLowersQuantity(capped: int, quantity: int, entry: real, riskPerShare: real, maxValue: real)
    ensures entry > 0.0 && riskPerShare > 0.0 &&
            capped as real * entry <= maxValue < quantity as real * entry ==>
              capped < quantity && capped as real * riskPerShare <= quantity as real * riskPerShare
  {
    if entry > 0.0 && riskPerShare > 0.0 && capped as real * entry <= maxValue < quantity as real * entry {
      assert (quantity - capped) as real * entry > 0.0;
      assert (quantity - capped) as real > 0.0;
      assert (quantity - capped) as real * riskPerShare > 0.0;
    }
  }

  /** PositionSizer.calculate_position_size: risk capital * riskPercent / 100
      over the per-share distance to the stop, truncated to whole shares, then
      cut back to the shares 20% of capital buys when the position would be
      worth more. */
  function CalculatePositionSize(capital: real, entry: real, stopLoss: real, riskPercent: real): (p: Position)
    ensures p == ZeroRisk <==> entry == stopLoss
    ensures p.Sized? ==>
              p.positionValue == p.quantity as real * entry &&
              p.riskPerShare == Abs(entry - stopLoss) > 0.0 &&
              p.riskAmount == capital * (riskPercent / 100.0) &&
              p.riskPercent == riskPercent
  {
    var riskAmount := capital * (riskPercent / 100.0);
    var riskPerShare := Abs(entry - stopLoss);
    if riskPerShare == 0.0 then ZeroRisk
    else
      var quantity := Trunc(riskAmount / riskPerShare);
      var maxPositionValue := capital * MaxPositionFraction;
      if quantity as real * entry > maxPositionValue then
        if entry == 0.0 then SizingFault
        else
          var capped := Trunc(maxPositionValue / entry);
          Sized(capped, riskAmount, capped as real * entry, riskPerShare, riskPercent)
      else
        Sized(quantity, riskAmount, quantity as real * entry, riskPerShare, riskPercent)
  }

  /** Sizing raises exactly when the cap has to be applied and the entry
      is 0 (ZeroDivisionError on Python floats; on numpy floats the division
      gives -inf and int() raises OverflowError), which happens when the
      capital is negative and the stop is off the entry. */
  lemma SizingFaultCase(capital: real, entry: real, stopLoss: real, riskPercent: real)
    ensures CalculatePositionSize(capital, entry, stopLoss, riskPercent) == SizingFault <==>
              entry != stopLoss && entry == 0.0 && capital < 0.0
  {
    if entry == 0.0 && entry != stopLoss {
      var quantity := Trunc(capital * (riskPercent / 100.0) / Abs(entry - stopLoss));
      assert quantity as real * entry == 0.0;
    }
  }

  /** A sized position is worth at most 20% of a non-negative capital when
      the entry is positive. */
  lemma SizingWithinCap(capital: real, entry: real, stopLoss: real, riskPercent: real)
    ensures var p := CalculatePositionSize(capital, entry, stopLoss, riskPercent);
            p.Sized? && capital >= 0.0 && entry > 0.0 ==> p.positionValue <= MaxPositionFraction * capital
  {
    var riskPerShare := Abs(entry - stopLoss);
    if capital >= 0.0 && entry > 0.0 && riskPerShare != 0.0 {
      TruncBelowQuotient(capital * MaxPositionFraction, entry);
    }
  }

  /** With non-negative capital, risk percentage and entry, the quantity is
      non-negative and what it risks stays within the risk amount. */
  lemma SizingWithinRisk(capital: real, entry: real, stopLoss: real, riskPercent: real)
    ensures var p := CalculatePositionSize(capital, entry, stopLoss, riskPercent);
            p.Sized? && capital >= 0.0 && riskPercent >= 0.0 && entry > 0.0 ==>
              0 <= p.quantity && p.quantity as real * p.riskPerShare <= p.riskAmount
  {
    var riskAmount := capital * (riskPercent / 100.0);
    var riskPerShare := Abs(entry - stopLoss);
    if capital >= 0.0 && riskPercent >= 0.0 && entry > 0.0 && riskPerShare != 0.0 {
      RiskWithinAmount(riskAmount, riskPerShare, entry, capital * MaxPositionFraction);
    }
  }

  /** The arithmetic of SizingWithinRisk: both the risk-based quantity and
      the capped one risk no more than the risk amount. */
  lemma RiskWithinAmount(riskAmount: real, riskPerShare: real, entry: real, maxValue: real)
    requires riskAmount >= 0.0 && riskPerShare > 0.0 && entry > 0.0 && maxValue >= 0.0
    ensures var quantity := Trunc(riskAmount / riskPerShare);
            0 <= quantity && quantity as real * riskPerShare <= riskAmount &&
            (quantity as real * entry > maxValue ==>
               var capped := Trunc(maxValue / entry);
               0 <= capped && capped as real * riskPerShare <= riskAmount)
  {
    var quantity := Trunc(riskAmount / riskPerShare);
    TruncBelowQuotient(riskAmount, riskPerShare);
    if quantity as real * entry > maxValue {
      var capped := Trunc(maxValue / entry);
      TruncBelowQuotient(maxValue, entry);
      CapLowersQuantity(capped, quantity, entry, riskPerShare, maxValue);
    }
  }

  /** The risk-based quantity stands whenever the position it buys fits
      under the 20% cap. */
  lemma SizingUncapped(capital: real, entry: real, stopLoss: real, riskPercent: real)
    ensures var p := CalculatePositionSize(capital, entry, stopLoss, riskPercent);
            p.Sized? && Trunc(p.riskAmount / p.riskPerShare) as real * entry <= MaxPositionFraction * capital ==>
              p.quantity == Trunc(p.riskAmount / p.riskPerShare)
  {
  }

  /** When the risk-based quantity would buy more than 20% of capital, the
      quantity is the whole shares 20% of capital buys at the entry. */
  lemma SizingCapped(capital: real, entry: real, stopLoss: real, riskPercent: real)
    ensures var p := CalculatePositionSize(capital, entry, stopLoss, riskPercent);
            p.Sized? && Trunc(p.riskAmount / p.riskPerShare) as real * entry > MaxPositionFraction * capital ==>
              entry != 0.0 && p.quantity == Trunc(MaxPositionFraction * capital / entry)
  {
  }

  /** What sizing promises of its result p: zero risk exactly at a stop on
      the entry; the fault exactly at an entry of 0 with negative capital;
      otherwise the risk amount and per-share risk of the inputs, a position
      worth quantity times entry and at most 20% of a non-negative capital,
      risking no more than the risk amount, and a quantity that is the
      risk-based one when that fits under the cap and the one the cap buys
      when it does not. */
  predicate SizingPromise(p: Position, capital: real, entry: real, stopLoss: real, riskPercent: real)
  {
    (p == ZeroRisk <==> entry == stopLoss) &&
    (p == SizingFault <==> entry != stopLoss && entry == 0.0 && capital < 0.0) &&
    (p.Sized? ==>
       p.riskPercent == riskPercent && p.riskAmount == capital * (riskPercent / 100.0) &&
       p.riskPerShare == Abs(entry - stopLoss) > 0.0 && p.positionValue == p.quantity as real * entry) &&
    (p.Sized? && capital >= 0.0 && entry > 0.0 ==> p.positionValue <= MaxPositionFraction * capital) &&
    (p.Sized? && capital >= 0.0 && riskPercent >= 0.0 && entry > 0.0 ==>
       0 <= p.quantity && p.quantity as real * p.riskPerShare <= p.riskAmount) &&
    (p.Sized? && Trunc(p.riskAmount / p.riskPerShare) as real * entry <= MaxPositionFraction * capital ==>
       p.quantity == Trunc(p.riskAmount / p.riskPerShare)) &&
    (p.Sized? && Trunc(p.riskAmount / p.riskPerShare) as real * entry > MaxPositionFraction * capital ==>
       entry != 0.0 && p.quantity == Trunc(MaxPositionFraction * capital / entry))
  }

  /** Sizing keeps every one of those promises. */
  lemma SizingKeepsPromise(capital: real, entry: real, stopLoss: real, riskPercent: real)
    ensures SizingPromise(CalculatePositionSize(capital, entry, stopLoss, riskPercent), capital, entry, stopLoss, riskPercent)
  {
    SizingFaultCase(capital, entry, stopLoss, riskPercent);
    SizingWithinCap(capital, entry, stopLoss, riskPercent);
    SizingWithinRisk(capital, entry, stopLoss, riskPercent);
    SizingUncapped(capital, entry, stopLoss, riskPercent);
    SizingCapped(capital, entry, stopLoss, riskPercent);
  }

  datatype Rejection = InvalidStopLoss | InvalidPositionSize | InsufficientCapital

  datatype SignalCheck =
    | Rejected(reason: Rejection)
    | Accepted(position: Position, potentialProfit: real, riskReward: real)
    | CheckFault

  /** Potential profit per unit of risk; 0 when nothing is risked. */
  function RewardToRisk(profit: real, risk: real): (r: real)
    ensures risk > 0.0 ==> r * risk == profit
    ensures risk <= 0.0 ==> r == 0.0
  {
    if risk > 0.0 then profit / risk else 0.0
  }

  /** PositionSizer.validate_signal: size the order, reject a zero quantity
      (with the sizing error if there is one) or a position worth more than
      the capital, otherwise add the potential profit and the
      reward-to-risk ratio (0 when nothing is risked). */
  function ValidateSignal(order: Order, capital: real, riskPercent: real): (v: SignalCheck)
    ensures var p := CalculatePositionSize(capital, order.entry, order.stopLoss, riskPercent);
            (v == CheckFault <==> p == SizingFault) &&
            (v == Rejected(InvalidStopLoss) <==> p == ZeroRisk) &&
            (v == Rejected(InvalidPositionSize) <==> p.Sized? && p.quantity == 0) &&
            (v == Rejected(InsufficientCapital) <==> p.Sized? && p.quantity != 0 && p.positionValue > capital)
    ensures v.Accepted? ==>
              v.position == CalculatePositionSize(capital, order.entry, order.stopLoss, riskPercent) &&
              v.position.Sized? && v.position.quantity != 0 && v.position.positionValue <= capital &&
              v.potentialProfit == v.position.quantity as real * Abs(order.target - order.entry) &&
              v.riskReward == RewardToRisk(v.potentialProfit, v.position.riskAmount)
  {
    var p := CalculatePositionSize(capital, order.entry, order.stopLoss, riskPercent);
    match p
    case SizingFault => CheckFault
    case ZeroRisk => Rejected(InvalidStopLoss)
    case Sized(quantity, riskAmount, positionValue, _, _) =>
      if quantity == 0 then Rejected(InvalidPositionSize)
      else if positionValue > capital then Rejected(InsufficientCapital)
      else
        var potentialProfit := quantity as real * Abs(order.target - order.entry);
        Accepted(p, potentialProfit, RewardToRisk(potentialProfit, riskAmount))
  }

  datatype Refusal = DailyLimitReached(maxTrades: int) | LossLimitReached(maxLosses: int) | CapitalTooLow

  datatype Admission = Admitted | Refused(reason: Refusal)

  /** The admission guard: the trade count, then the loss streak, then the
      capital floor; the first rule that fails is the reason. */
  function Admit(dailyTrades: nat, maxTradesPerDay: int, consecutiveLosses: nat, maxConsecutiveLosses: int,
                 capital: real, initialCapital: real): (a: Admission)
    ensures a == Refused(DailyLimitReached(maxTradesPerDay)) <==> dailyTrades >= maxTradesPerDay
    ensures a == Refused(LossLimitReached(maxConsecutiveLosses)) <==>
              dailyTrades < maxTradesPerDay && consecutiveLosses >= maxConsecutiveLosses
    ensures a == Refused(CapitalTooLow) <==>
              dailyTrades < maxTradesPerDay && consecutiveLosses < maxConsecutiveLosses &&
              capital < initialCapital * MinCapitalFraction
    ensures a == Admitted <==>
              dailyTrades < maxTradesPerDay && consecutiveLosses < maxConsecutiveLosses &&
              capital >= initialCapital * MinCapitalFraction
  {
    if dailyTrades >= maxTradesPerDay then Refused(DailyLimitReached(maxTradesPerDay))
    else if consecutiveLosses >= maxConsecutiveLosses then Refused(LossLimitReached(maxConsecutiveLosses))
    else if capital < initialCapital * MinCapitalFraction then Refused(CapitalTooLow)
    else Admitted
  }

  datatype RiskConfig = RiskConfig(riskPerTradePercent: real, maxTradesPerDay: int, maxConsecutiveLosses: int)

  const DefaultRiskConfig: RiskConfig :=
    RiskConfig(DefaultRiskPercent, DefaultMaxTradesPerDay, DefaultMaxConsecutiveLosses)

  /** A count as a percentage of n, as count / n * 100. */
  function Rate(count: nat, n: nat): (r: real)
    requires n > 0
    ensures r * n as real == count as real * 100.0
  {
    var q := count as real / n as real;
    assert q * n as real == count as real;
    q * 100.0
  }

  lemma RateBounds(count: nat, n: nat)
    requires n > 0
    ensures count <= n ==> 0.0 <= Rate(count, n) <= 100.0
  {
    var r := Rate(count, n);
    if count <= n {
      assert (100.0 - r) * n as real == (n - count) as real * 100.0;
      SignOfProduct(100.0 - r, n as real);
      SignOfProduct(r, n as real);
    }
  }

  /** An average over n trades. */
  function PerTrade(total: real, n: nat): (r: real)
    requires n > 0
    ensures r * n as real == total
  {
    total / n as real
  }

  datatype CloseResult = TradeNotFound | TradeAlreadyClosed | ClosedTrade(trade: Trade)

  /** Summary statistics; with no closed trade only the capital is reported.
      totalPnlPercent (also reported as the capital change percentage) is
      None when the initial capital is 0 and the division is not a number. */
  datatype Summary =
    | NoClosedTrades(currentCapital: real)
    | TradeStats(totalTrades: nat, winningTrades: nat, losingTrades: nat, winRate: real,
                 totalPnl: real, totalPnlPercent: Option<real>, averagePnl: real,
                 currentCapital: real, capitalChange: real, consecutiveLosses: nat, dailyTrades: nat)

  class RiskManager {
    const initialCapital: real
    const config: RiskConfig
    const maxTradesPerDay: int
    const maxConsecutiveLosses: int
    var capital: real
    var trades: seq<Trade>
    var dailyTrades: nat
    var consecutiveLosses: nat
    var winningTrades: nat
    var losingTrades: nat

    /** The counters agree with the ledger: ids are 1..n, every record is
        settled, wins and losses count the closed trades, capital is the
        initial capital plus the realised pnl, the loss streak is part of the
        losses and the day's trades are part of the ledger. */
    ghost predicate Valid()
      reads this
    {
      SequentialIds(trades) &&
      AllSettled(trades) &&
      winningTrades == Wins(trades) && losingTrades == Losses(trades) &&
      capital == initialCapital + ClosedPnl(trades) &&
      consecutiveLosses <= losingTrades &&
      dailyTrades <= |trades|
    }

    constructor(initialCapital: real, config: RiskConfig)
      ensures Valid()
      ensures this.initialCapital == initialCapital && this.config == config
      ensures maxTradesPerDay == config.maxTradesPerDay && maxConsecutiveLosses == config.maxConsecutiveLosses
      ensures capital == initialCapital && trades == []
      ensures dailyTrades == 0 && consecutiveLosses == 0 && winningTrades == 0 && losingTrades == 0
    {
      this.initialCapital := initialCapital;
      this.config := config;
      maxTradesPerDay := config.maxTradesPerDay;
      maxConsecutiveLosses := config.maxConsecutiveLosses;
      capital := initialCapital;
      trades := [];
      dailyTrades := 0;
      consecutiveLosses := 0;
      winningTrades := 0;
      losingTrades := 0;
    }

    /** RiskManager.can_take_trade. */
    function CanTakeTrade(): (a: Admission)
      reads this
      ensures a == Admit(dailyTrades, maxTradesPerDay, consecutiveLosses, maxConsecutiveLosses,
                         capital, initialCapital)
    {
      Admit(dailyTrades, maxTradesPerDay, consecutiveLosses, maxConsecutiveLosses, capital, initialCapital)
    }

    /** RiskManager.add_trade: append an open trade with the next id and count
        it against the day. */
    method AddTrade(symbol: string, order: Order, quantity: int, timestamp: int) returns (t: Trade)
      requires Valid()
      modifies this
      ensures Valid()
      ensures t == OpenTrade(|old(trades)| + 1, symbol, order, quantity, timestamp)
      ensures trades == old(trades) + [t]
      ensures dailyTrades == old(dailyTrades) + 1
      ensures capital == old(capital) && consecutiveLosses == old(consecutiveLosses)
      ensures winningTrades == old(winningTrades) && losingTrades == old(losingTrades)
    {
      t := OpenTrade(|trades| + 1, symbol, order, quantity, timestamp);
      AppendOpen(trades, t);
      AppendKeepsLedger(trades, t);
      trades := trades + [t];
      dailyTrades := dailyTrades + 1;
    }

    /** RiskManager.close_trade: find the trade by id (the first match of a
        linear search); an unknown id or a trade that is not open is an error
        and changes nothing. Otherwise the trade is closed at exitPrice, its
        pnl is added to capital, and a positive pnl counts as a win (ending
        the loss streak) while any other pnl counts as a loss. */
    method CloseTrade(tradeId: int, exitPrice: real, timestamp: int) returns (result: CloseResult)
      requires Valid()
      modifies this
      ensures Valid()
      ensures result == TradeNotFound <==> !(1 <= tradeId <= |old(trades)|)
      ensures result == TradeAlreadyClosed <==>
                1 <= tradeId <= |old(trades)| && old(trades)[tradeId - 1].status == Closed
      ensures !result.ClosedTrade? ==>
                trades == old(trades) && capital == old(capital) && dailyTrades == old(dailyTrades) &&
                consecutiveLosses == old(consecutiveLosses) &&
                winningTrades == old(winningTrades) && losingTrades == old(losingTrades)
      ensures result.ClosedTrade? ==>
                1 <= tradeId <= |old(trades)| && old(trades)[tradeId - 1].status == Open
      ensures result.ClosedTrade? ==>
                result.trade == CloseOut(old(trades)[tradeId - 1], exitPrice, timestamp)
      ensures result.ClosedTrade? ==> trades == old(trades)[tradeId - 1 := result.trade]
      ensures result.ClosedTrade? ==>
                capital == old(capital) + result.trade.pnl && dailyTrades == old(dailyTrades)
      ensures result.ClosedTrade? && result.trade.pnl > 0.0 ==>
                winningTrades == old(winningTrades) + 1 && consecutiveLosses == 0 &&
                losingTrades == old(losingTrades)
      ensures result.ClosedTrade? && result.trade.pnl <= 0.0 ==>
                losingTrades == old(losingTrades) + 1 && consecutiveLosses == old(consecutiveLosses) + 1 &&
                winningTrades == old(winningTrades)
    {
      var k := 0;
      while k < |trades|
        invariant 0 <= k <= |trades|
        invariant tradeId < 1 || tradeId > k
      {
        if trades[k].id == tradeId {
          break;
        }
        k := k + 1;
      }
      if k == |trades| {
        result := TradeNotFound;
      } else if trades[k].status != Open {
        result := TradeAlreadyClosed;
      } else {
        var closed := Settle(k, exitPrice, timestamp);
        result := ClosedTrade(closed);
      }
    }

    /** The closing half of close_trade, for the open trade at position k. */
    method Settle(k: nat, exitPrice: real, timestamp: int) returns (closed: Trade)
      requires Valid() && k < |trades| && trades[k].status == Open
      modifies this
      ensures Valid()
      ensures closed == CloseOut(old(trades)[k], exitPrice, timestamp)
      ensures trades == old(trades)[k := closed]
      ensures capital == old(capital) + closed.pnl && dailyTrades == old(dailyTrades)
      ensures closed.pnl > 0.0 ==>
                winningTrades == old(winningTrades) + 1 && consecutiveLosses == 0 &&
                losingTrades == old(losingTrades)
      ensures closed.pnl <= 0.0 ==>
                losingTrades == old(losingTrades) + 1 && consecutiveLosses == old(consecutiveLosses) + 1 &&
                winningTrades == old(winningTrades)
    {
      closed := CloseOut(trades[k], exitPrice, timestamp);
      CloseOutSettled(trades[k], exitPrice, timestamp);
      ReplaceKeepsLedger(trades, k, closed);
      CloseAt(trades, k, closed);
      trades := trades[k := closed];
      capital := capital + closed.pnl;
      if closed.pnl > 0.0 {
        winningTrades := winningTrades + 1;
        consecutiveLosses := 0;
      } else {
        losingTrades := losingTrades + 1;
        consecutiveLosses := consecutiveLosses + 1;
      }
    }

    /** RiskManager.get_open_trades. */
    function OpenTrades(): (r: seq<Trade>)
      reads this
      ensures forall t :: t in r <==> t in trades && t.status == Open
      ensures IsSubsequence(r, trades)
    {
      WithStatus(trades, Open)
    }

    /** RiskManager.get_closed_trades. */
    function ClosedTrades(): (r: seq<Trade>)
      reads this
      ensures forall t :: t in r <==> t in trades && t.status == Closed
      ensures IsSubsequence(r, trades)
    {
      WithStatus(trades, Closed)
    }

    /** RiskManager.get_summary: the win rate and average pnl over the closed
        trades, and the capital change, absolute and as a percentage. */
    function GetSummary(): (s: Summary)
      reads this
      ensures s.NoClosedTrades? <==> |ClosedTrades()| == 0
      ensures s.NoClosedTrades? ==> s.currentCapital == capital
      ensures s.TradeStats? ==>
                s.winningTrades == winningTrades && s.losingTrades == losingTrades &&
                s.consecutiveLosses == consecutiveLosses && s.dailyTrades == dailyTrades &&
                s.totalPnl == ClosedPnl(trades)
      ensures s.TradeStats? ==>
                s.totalTrades == |ClosedTrades()| > 0 &&
                s.winRate == Rate(s.winningTrades, s.totalTrades) &&
                s.averagePnl == PerTrade(s.totalPnl, s.totalTrades)
      ensures s.TradeStats? ==>
                s.currentCapital == capital && s.capitalChange == capital - initialCapital &&
                s.totalPnlPercent == PercentOf(s.capitalChange, initialCapital)
      ensures Valid() && s.TradeStats? ==>
                s.totalPnl == s.capitalChange &&
                s.winningTrades + s.losingTrades == s.totalTrades &&
                0.0 <= s.winRate <= 100.0
    {
      var closed := ClosedTrades();
      if |closed| == 0 then NoClosedTrades(capital)
      else
        var n := |closed|;
        var totalPnl := ClosedPnl(trades);
        WinsAndLossesPartitionClosed(trades);
        RateBounds(winningTrades, n);
        Summary.TradeStats(n, winningTrades, losingTrades, Rate(winningTrades, n),
                           totalPnl, PercentOf(capital - initialCapital, initialCapital), PerTrade(totalPnl, n),
                           capital, capital - initialCapital, consecutiveLosses, dailyTrades)
    }

    /** RiskManager.reset_daily_counters: only the day's trade count restarts;
        the loss streak carries over into the next day. */
    method ResetDailyCounters()
      requires Valid()
      modifies this
      ensures Valid()
      ensures dailyTrades == 0
      ensures trades == old(trades) && capital == old(capital) && consecutiveLosses == old(consecutiveLosses)
      ensures winningTrades == old(winningTrades) && losingTrades == old(losingTrades)
    {
      dailyTrades := 0;
    }
  }
}
