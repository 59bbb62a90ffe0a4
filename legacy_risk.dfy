/** The older risk manager: the production manager's admission guard and
    capped sizing, plus running totals of trades and realised pnl, a
    risk-percentage override, a daily summary that omits the capital fields
    when nothing is closed, and a trade-plan check that sizes with the
    manager's own capital. */
module LegacyRisk {
  import opened Common
  import opened Ledger
  import PositionSizing

  /** The risk percentage a sizing uses: the override when it is given and
      non-zero (Python's `or` treats None and 0 alike), else the
      configured one. */
  function EffectiveRiskPercent(custom: Option<real>, configured: real): (pct: real)
    ensures custom.Some? && custom.value != 0.0 ==> pct == custom.value
    ensures custom.None? || custom.value == 0.0 ==> pct == configured
  {
    if custom.Some? && custom.value != 0.0 then custom.value else configured
  }

  /** Both ends of the statistics get_daily_summary reports: the all-zero
      shape without any capital field when no trade is closed, otherwise the
      counts, rates and capital change. A percentage of a zero initial
      capital is not a number (None). */
  datatype DailySummary =
    | NoClosedTrades
    | DayStats(totalTrades: nat, winningTrades: nat, losingTrades: nat, winRate: real,
               totalPnl: real, totalPnlPercent: Option<real>, averagePnl: real,
               currentCapital: real, capitalChange: real, capitalChangePercent: Option<real>)

  /** Why a trade plan is turned down: the guard's refusal, a stop at the
      entry, or a size of zero shares. */
  datatype PlanRejection = GuardRefused(reason: PositionSizing.Refusal) | StopAtEntry | ZeroQuantity

  /** The outcome of validate_trade_plan. PlanFault is the capped sizing
      branch at an entry of 0, where the division raises. */
  datatype PlanCheck =
    | PlanRejected(rejection: PlanRejection)
    | PlanAccepted(quantity: int, positionValue: real, riskAmount: real, riskPercent: real,
                   potentialProfit: real, riskReward: real)
    | PlanFault

  class RiskManager {
    const initialCapital: real
    const config: PositionSizing.RiskConfig
    var capital: real
    var trades: seq<Trade>
    var dailyTrades: nat
    var consecutiveLosses: nat
    var totalTrades: nat
    var winningTrades: nat
    var losingTrades: nat
    var totalPnl: real

    /** The counters agree with the ledger: ids are 1..n, every record is
        settled, totalTrades counts every record, wins and losses count the
        closed ones, totalPnl is their realised pnl and capital the initial
        capital plus it, the loss streak is part of the losses and the day's
        trades are part of the ledger. */
    ghost predicate Valid()
      reads this
    {
      SequentialIds(trades) &&
      AllSettled(trades) &&
      totalTrades == |trades| &&
      winningTrades == Wins(trades) && losingTrades == Losses(trades) &&
      totalPnl == ClosedPnl(trades) &&
      capital == initialCapital + totalPnl &&
      consecutiveLosses <= losingTrades &&
      dailyTrades <= |trades|
    }

    /** RiskManager.__init__, with the default trading configuration when
        none is given. */
    constructor(capital: real, config: Option<PositionSizing.RiskConfig>)
      ensures Valid()
      ensures initialCapital == capital && this.capital == capital && trades == []
      ensures this.config == (if config.Some? then config.value else PositionSizing.DefaultRiskConfig)
      ensures dailyTrades == 0 && consecutiveLosses == 0 && totalTrades == 0
      ensures winningTrades == 0 && losingTrades == 0 && totalPnl == 0.0
    {
      initialCapital := capital;
      this.capital := capital;
      this.config := if config.Some? then config.value else PositionSizing.DefaultRiskConfig;
      trades := [];
      dailyTrades := 0;
      consecutiveLosses := 0;
      totalTrades := 0;
      winningTrades := 0;
      losingTrades := 0;
      totalPnl := 0.0;
    }

    /** RiskManager.can_take_trade: the production guard, in the same order. */
    function CanTakeTrade(): (a: PositionSizing.Admission)
      reads this
      ensures a == PositionSizing.Admit(dailyTrades, config.maxTradesPerDay, consecutiveLosses,
                                        config.maxConsecutiveLosses, capital, initialCapital)
      ensures a == PositionSizing.Admitted <==>
                dailyTrades < config.maxTradesPerDay && consecutiveLosses < config.maxConsecutiveLosses &&
                capital >= initialCapital * PositionSizing.MinCapitalFraction
      ensures a == PositionSizing.Refused(PositionSizing.DailyLimitReached(config.maxTradesPerDay)) <==>
                dailyTrades >= config.maxTradesPerDay
      ensures a == PositionSizing.Refused(PositionSizing.LossLimitReached(config.maxConsecutiveLosses)) <==>
                dailyTrades < config.maxTradesPerDay && consecutiveLosses >= config.maxConsecutiveLosses
    {
      PositionSizing.Admit(dailyTrades, config.maxTradesPerDay, consecutiveLosses, config.maxConsecutiveLosses,
                           capital, initialCapital)
    }

    /** RiskManager.calculate_position_size: the capped fixed-fractional
        sizing on the manager's capital, at the override risk percentage
        when one is given and non-zero. */
    function CalculatePositionSize(entry: real, stopLoss: real, customRiskPct: Option<real>): (p: PositionSizing.Position)
      reads this
      ensures PositionSizing.SizingPromise(p, capital, entry, stopLoss,
                                           EffectiveRiskPercent(customRiskPct, config.riskPerTradePercent))
    {
      var pct := EffectiveRiskPercent(customRiskPct, config.riskPerTradePercent);
      PositionSizing.SizingKeepsPromise(capital, entry, stopLoss, pct);
      PositionSizing.CalculatePositionSize(capital, entry, stopLoss, pct)
    }

    /** RiskManager.add_trade: append an open trade with the next id and
        count it against the day and the running total. */
    method AddTrade(symbol: string, order: Order, quantity: int, timestamp: int) returns (t: Trade)
      requires Valid()
      modifies this
      ensures Valid()
      ensures t == OpenTrade(|old(trades)| + 1, symbol, order, quantity, timestamp)
      ensures trades == old(trades) + [t]
      ensures dailyTrades == old(dailyTrades) + 1 && totalTrades == old(totalTrades) + 1
      ensures capital == old(capital) && totalPnl == old(totalPnl) && consecutiveLosses == old(consecutiveLosses)
      ensures winningTrades == old(winningTrades) && losingTrades == old(losingTrades)
    {
      t := OpenTrade(|trades| + 1, symbol, order, quantity, timestamp);
      AppendOpen(trades, t);
      AppendKeepsLedger(trades, t);
      trades := trades + [t];
      dailyTrades := dailyTrades + 1;
      totalTrades := totalTrades + 1;
    }

    /** RiskManager.close_trade: find the trade by id with a linear search;
        an unknown id or a closed trade is an error that changes nothing.
        Otherwise the trade is closed at exitPrice and its pnl goes into both
        capital and the pnl total; a positive pnl is a win that ends the loss
        streak, any other pnl (0 included) a loss. */
    method CloseTrade(tradeId: int, exitPrice: real, timestamp: int) returns (result: PositionSizing.CloseResult)
      requires Valid()
      modifies this
      ensures Valid()
      ensures result == PositionSizing.TradeNotFound <==> !(1 <= tradeId <= |old(trades)|)
      ensures result == PositionSizing.TradeAlreadyClosed <==>
                1 <= tradeId <= |old(trades)| && old(trades)[tradeId - 1].status == Closed
      ensures !result.ClosedTrade? ==>
                trades == old(trades) && capital == old(capital) && totalPnl == old(totalPnl) &&
                dailyTrades == old(dailyTrades) && totalTrades == old(totalTrades) &&
                consecutiveLosses == old(consecutiveLosses) &&
                winningTrades == old(winningTrades) && losingTrades == old(losingTrades)
      ensures result.ClosedTrade? ==>
                1 <= tradeId <= |old(trades)| && old(trades)[tradeId - 1].status == Open &&
                result.trade == CloseOut(old(trades)[tradeId - 1], exitPrice, timestamp) &&
                trades == old(trades)[tradeId - 1 := result.trade]
      ensures result.ClosedTrade? ==>
                capital == old(capital) + result.trade.pnl && totalPnl == old(totalPnl) + result.trade.pnl &&
                dailyTrades == old(dailyTrades) && totalTrades == old(totalTrades)
      ensures result.ClosedTrade? && result.trade.pnl > 0.0 ==>
                winningTrades == old(winningTrades) + 1 && consecutiveLosses == 0 &&
                losingTrades == old(losingTrades)
      ensures result.ClosedTrade? && result.trade.pnl <= 0.0 ==>
                losingTrades == old(losingTrades) + 1 && consecutiveLosses == old(consecutiveLosses) + 1 &&
                winningTrades == old(winningTrades)
    {
      var k := 0;
      while k < |trades|
        invariant 0 <= k <= |trades|
        invariant tradeId < 1 || tradeId > k
      {
        if trades[k].id == tradeId {
          break;
        }
        k := k + 1;
      }
      if k == |trades| {
        result := PositionSizing.TradeNotFound;
      } else if trades[k].status != Open {
        result := PositionSizing.TradeAlreadyClosed;
      } else {
        var closed := Settle(k, exitPrice, timestamp);
        result := PositionSizing.ClosedTrade(closed);
      }
    }

    /** The closing half of close_trade, for the open trade at position k. */
    method Settle(k: nat, exitPrice: real, timestamp: int) returns (closed: Trade)
      requires Valid() && k < |trades| && trades[k].status == Open
      modifies this
      ensures Valid()
      ensures closed == CloseOut(old(trades)[k], exitPrice, timestamp)
      ensures trades == old(trades)[k := closed]
      ensures capital == old(capital) + closed.pnl && totalPnl == old(totalPnl) + closed.pnl
      ensures dailyTrades == old(dailyTrades) && totalTrades == old(totalTrades)
      ensures closed.pnl > 0.0 ==>
                winningTrades == old(winningTrades) + 1 && consecutiveLosses == 0 &&
                losingTrades == old(losingTrades)
      ensures closed.pnl <= 0.0 ==>
                losingTrades == old(losingTrades) + 1 && consecutiveLosses == old(consecutiveLosses) + 1 &&
                winningTrades == old(winningTrades)
    {
      closed := CloseOut(trades[k], exitPrice, timestamp);
      CloseOutSettled(trades[k], exitPrice, timestamp);
      ReplaceKeepsLedger(trades, k, closed);
      CloseAt(trades, k, closed);
      var pnl := closed.pnl;
      trades := trades[k := closed];
      capital := capital + pnl;
      totalPnl := totalPnl + pnl;
      if pnl > 0.0 {
        winningTrades := winningTrades + 1;
        consecutiveLosses := 0;
      } else {
        losingTrades := losingTrades + 1;
        consecutiveLosses := consecutiveLosses + 1;
      }
    }

    /** RiskManager.get_open_trades. */
    function OpenTrades(): (r: seq<Trade>)
      reads this
      ensures forall t :: t in r <==> t in trades && t.status == Open
      ensures IsSubsequence(r, trades)
    {
      WithStatus(trades, Open)
    }

    /** RiskManager.get_closed_trades. */
    function ClosedTrades(): (r: seq<Trade>)
      reads this
      ensures forall t :: t in r <==> t in trades && t.status == Closed
      ensures IsSubsequence(r, trades)
    {
      WithStatus(trades, Closed)
    }

    /** RiskManager.get_daily_summary: the zero shape when nothing is
        closed; otherwise the closed count, the win counters and win rate,
        the pnl summed over the closed trades with its percentage of the
        initial capital and its average, and the capital change. */
    function GetDailySummary(): (s: DailySummary)
      reads this
      ensures s == NoClosedTrades <==> |ClosedTrades()| == 0
      ensures s.DayStats? ==>
                s.totalTrades == |ClosedTrades()| > 0 &&
                s.winningTrades == winningTrades && s.losingTrades == losingTrades &&
                s.winRate == PositionSizing.Rate(s.winningTrades, s.totalTrades) &&
                s.averagePnl == PositionSizing.PerTrade(s.totalPnl, s.totalTrades) &&
                s.totalPnlPercent == PercentOf(s.totalPnl, initialCapital)
      ensures s.DayStats? ==>
                s.currentCapital == capital && s.capitalChange == capital - initialCapital &&
                s.capitalChangePercent == PercentOf(s.capitalChange, initialCapital)
      ensures Valid() && s.DayStats? ==>
                s.totalPnl == totalPnl == s.capitalChange &&
                s.winningTrades + s.losingTrades == s.totalTrades &&
                0.0 <= s.winRate <= 100.0
    {
      var closed := ClosedTrades();
      if |closed| == 0 then NoClosedTrades
      else
        var n := |closed|;
        var pnl := ClosedPnl(trades);
        WinsAndLossesPartitionClosed(trades);
        PositionSizing.RateBounds(winningTrades, n);
        DayStats(n, winningTrades, losingTrades, PositionSizing.Rate(winningTrades, n),
                 pnl, PercentOf(pnl, initialCapital), PositionSizing.PerTrade(pnl, n),
                 capital, capital - initialCapital, PercentOf(capital - initialCapital, initialCapital))
    }

    /** RiskManager.validate_trade_plan: the guard first, then sizing at
        the configured risk on the manager's own capital (the capital
        argument is never used), rejecting a stop at the entry or a size of
        zero; an accepted plan carries the potential profit quantity times
        the distance to the target and its ratio to the risk (0 when nothing
        is risked). */
    function ValidateTradePlan(plan: Order, capital: Option<real>): (v: PlanCheck)
      reads this
      ensures v.PlanRejected? && v.rejection.GuardRefused? <==> CanTakeTrade().Refused?
      ensures v.PlanRejected? && v.rejection.GuardRefused? ==> CanTakeTrade() == PositionSizing.Refused(v.rejection.reason)
      ensures CanTakeTrade() == PositionSizing.Admitted ==>
                var p := CalculatePositionSize(plan.entry, plan.stopLoss, None);
                (v == PlanFault <==> p == PositionSizing.SizingFault) &&
                (v == PlanRejected(StopAtEntry) <==> p == PositionSizing.ZeroRisk) &&
                (v == PlanRejected(ZeroQuantity) <==> p.Sized? && p.quantity == 0)
      ensures v.PlanAccepted? ==>
                var p := CalculatePositionSize(plan.entry, plan.stopLoss, None);
                CanTakeTrade() == PositionSizing.Admitted && p.Sized? && p.quantity != 0 &&
                v.quantity == p.quantity && v.positionValue == p.positionValue &&
                v.riskAmount == p.riskAmount && v.riskPercent == config.riskPerTradePercent &&
                v.potentialProfit == v.quantity as real * Abs(plan.target - plan.entry) &&
                v.riskReward == PositionSizing.RewardToRisk(v.potentialProfit, v.riskAmount)
    {
      var guard := CanTakeTrade();
      if guard.Refused? then PlanRejected(GuardRefused(guard.reason))
      else
        match CalculatePositionSize(plan.entry, plan.stopLoss, None)
        case SizingFault => PlanFault
        case ZeroRisk => PlanRejected(StopAtEntry)
        case Sized(quantity, riskAmount, positionValue, _, riskPercent) =>
          if quantity == 0 then PlanRejected(ZeroQuantity)
          else
            var profit := quantity as real * Abs(plan.target - plan.entry);
            PlanAccepted(quantity, positionValue, riskAmount, riskPercent, profit,
                         PositionSizing.RewardToRisk(profit, riskAmount))
    }

    /** RiskManager.reset_daily_counters: only the day's trade count
        restarts; the loss streak carries over. */
    method ResetDailyCounters()
      requires Valid()
      modifies this
      ensures Valid()
      ensures dailyTrades == 0
      ensures trades == old(trades) && capital == old(capital) && totalPnl == old(totalPnl)
      ensures consecutiveLosses == old(consecutiveLosses) && totalTrades == old(totalTrades)
      ensures winningTrades == old(winningTrades) && losingTrades == old(losingTrades)
    {
      dailyTrades := 0;
    }
  }

  /** The capital argument of validate_trade_plan changes nothing: the
      plan is sized on the manager's own capital. */
  lemma PlanIgnoresCapitalArgument(rm: RiskManager, plan: Order, a: Option<real>, b: Option<real>)
    ensures rm.ValidateTradePlan(plan, a) == rm.ValidateTradePlan(plan, b)
  {
  }

  /** An accepted plan's position obeys the 20% cap when the manager's
      capital is non-negative and the entry positive, since validate_trade_plan
      has no capital check of its own. */
  lemma AcceptedPlanCapped(rm: RiskManager, plan: Order, capital: Option<real>)
    requires rm.ValidateTradePlan(plan, capital).PlanAccepted?
    requires rm.capital >= 0.0 && plan.entry > 0.0
    ensures rm.ValidateTradePlan(plan, capital).positionValue <= PositionSizing.MaxPositionFraction * rm.capital
  {
  }
}
