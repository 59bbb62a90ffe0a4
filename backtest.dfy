/** The backtest day loop: for every weekday in the range it runs the
    pre-market screen, the live filter and the signal generator, then takes
    the signals in score order while the risk manager admits them, opening
    each trade and closing it at once at its target or its stop. Afterwards
    it reports the maximum drawdown of the cumulative daily pnl and the
    day and trade counts. */
module Backtest {
  import opened Common
  import opened Bars
  import opened Ledger
  import opened PositionSizing
  import opened Sorting
  import PreMarket
  import LiveMarket
  import Signals

  datatype BacktestConfig = BacktestConfig(universe: seq<string>, news: Option<seq<PreMarket.NewsItem>>,
                                           screen: PreMarket.ScreenConfig, live: LiveMarket.LiveConfig,
                                           signal: Signals.SignalConfig, risk: RiskConfig)

  /** One entry of daily_results. */
  datatype DayRecord = DayRecord(day: int, preMarketCandidates: nat, liveMarketCandidates: nat,
                                 signals: nat, trades: nat, pnl: real)

  /** Python's date.weekday() for a day counted from 1970-01-01, a Thursday:
      Monday is 0 and Sunday 6. */
  function Weekday(day: int): (w: int)
    ensures 0 <= w < 7
  {
    (day + 3) % 7
  }

  predicate IsWeekday(day: int)
  {
    Weekday(day) < 5
  }

  /** The timestamp the backtest gives a day's trades: the start of the day. */
  function DayStart(day: int): int
  {
    day * MinutesPerDay
  }

  function OrderOf(s: Signals.ScoredSignal): Order
  {
    Order(s.signal.side, s.signal.entry, s.signal.stopLoss, s.signal.target)
  }

  /** _simulate_exit with the random draw as the choice hitTarget: the
      signal's target or its stop. */
  function SimulateExit(s: Signals.ScoredSignal, hitTarget: bool): (exit: real)
    ensures exit == s.signal.target || exit == s.signal.stopLoss
    ensures hitTarget ==> exit == s.signal.target
    ensures !hitTarget ==> exit == s.signal.stopLoss
  {
    if hitTarget then s.signal.target else s.signal.stopLoss
  }

  // --------------------------------------------------------- the ledger

  /** Consecutive losses at the end of a ledger of closed trades in closing
      order: the trailing trades with pnl <= 0. */
  function LossStreak(ts: seq<Trade>): (n: nat)
    ensures n <= |ts|
  {
    if ts == [] then 0
    else if ts[|ts| - 1].pnl > 0.0 then 0
    else LossStreak(ts[..|ts| - 1]) + 1
  }

  /** The streak is exactly the run of losing trades at the end: each of the
      last LossStreak(ts) trades has pnl <= 0, and the trade just before
      them, when there is one, was a win. */
  lemma {:induction false} LossStreakTrailing(ts: seq<Trade>)
    ensures forall k :: |ts| - LossStreak(ts) <= k < |ts| ==> ts[k].pnl <= 0.0
    ensures LossStreak(ts) < |ts| ==> ts[|ts| - LossStreak(ts) - 1].pnl > 0.0
    decreases |ts|
  {
    if ts != [] && ts[|ts| - 1].pnl <= 0.0 {
      var init := ts[..|ts| - 1];
      LossStreakTrailing(init);
      assert forall k :: 0 <= k < |init| ==> init[k] == ts[k];
    }
  }

  /** What every ledger the backtest leaves behind looks like: every trade
      closed, at its target or its stop, and each one opened only while the
      loss streak of the trades before it was below the limit and the
      capital after them at least the floor. */
  ghost predicate Backtested(ts: seq<Trade>, initialCapital: real, maxConsecutiveLosses: int)
  {
    (forall i :: 0 <= i < |ts| ==> ts[i].status == Closed) &&
    (forall i :: 0 <= i < |ts| ==>
       ts[i].exitPrice == Some(ts[i].order.target) || ts[i].exitPrice == Some(ts[i].order.stopLoss)) &&
    (forall n :: 0 <= n < |ts| ==> AdmittedAt(ts, n, initialCapital, maxConsecutiveLosses))
  }

  /** can_take_trade admitted the trade at index n of the ledger: the loss
      streak of the trades before it was below the limit and the capital
      after them at least the floor. */
  ghost predicate AdmittedAt(ts: seq<Trade>, n: nat, initialCapital: real, maxConsecutiveLosses: int)
    requires n <= |ts|
  {
    LossStreak(ts[..n]) < maxConsecutiveLosses &&
    initialCapital + ClosedPnl(ts[..n]) >= initialCapital * MinCapitalFraction
  }

  /** Appending a trade that closed at its target or stop, opened while the
      streak and the capital allowed it, keeps the ledger backtested; the
      streak restarts on a win and grows by one on a loss. */
  lemma AppendClosed(ts: seq<Trade>, c: Trade, initialCapital: real, maxConsecutiveLosses: int)
    requires Backtested(ts, initialCapital, maxConsecutiveLosses)
    requires c.status == Closed
    requires c.exitPrice == Some(c.order.target) || c.exitPrice == Some(c.order.stopLoss)
    requires LossStreak(ts) < maxConsecutiveLosses
    requires initialCapital + ClosedPnl(ts) >= initialCapital * MinCapitalFraction
    ensures Backtested(ts + [c], initialCapital, maxConsecutiveLosses)
    ensures LossStreak(ts + [c]) == if c.pnl > 0.0 then 0 else LossStreak(ts) + 1
  {
    var us := ts + [c];
    assert us[..|us| - 1] == ts;
    forall n | 0 <= n < |us|
      ensures AdmittedAt(us, n, initialCapital, maxConsecutiveLosses)
    {
      if n < |ts| {
        assert AdmittedAt(ts, n, initialCapital, maxConsecutiveLosses);
        assert us[..n] == ts[..n];
      } else {
        assert us[..n] == ts;
      }
    }
  }

  /** Once the loss streak of a backtested ledger reaches the limit, the
      ledger ends there: no later trade was admitted. */
  lemma LockedOutAfterStreak(ts: seq<Trade>, initialCapital: real, maxConsecutiveLosses: int, n: nat)
    requires Backtested(ts, initialCapital, maxConsecutiveLosses)
    requires n <= |ts| && LossStreak(ts[..n]) >= maxConsecutiveLosses
    ensures n == |ts|
  {
    assert n < |ts| ==> AdmittedAt(ts, n, initialCapital, maxConsecutiveLosses);
  }

  // ------------------------------------------------------ trading a day

  /** The record the loop leaves for an accepted signal: opened with the
      given id at the start of the day and closed there at the simulated exit. */
  function DayTrade(id: int, s: Signals.ScoredSignal, quantity: int, day: int, hitTarget: int -> bool): (c: Trade)
    ensures c.id == id && c.symbol == s.symbol && c.order == OrderOf(s) && c.quantity == quantity
    ensures c.status == Closed && c.exitPrice == Some(SimulateExit(s, hitTarget(id)))
    ensures c.entryTime == DayStart(day) && c.exitTime == Some(DayStart(day))
  {
    CloseOut(OpenTrade(id, s.symbol, OrderOf(s), quantity, DayStart(day)), SimulateExit(s, hitTarget(id)), DayStart(day))
  }

  /** One turn of the execution loop for an admitted, valid signal: add the
      trade, pick the exit, close it. */
  method TakeTrade(rm: RiskManager, s: Signals.ScoredSignal, quantity: int, day: int, hitTarget: int -> bool)
    returns (closed: Trade)
    requires rm.Valid()
    requires Backtested(rm.trades, rm.initialCapital, rm.maxConsecutiveLosses)
    requires rm.consecutiveLosses == LossStreak(rm.trades)
    requires rm.CanTakeTrade() == Admitted
    modifies rm
    ensures rm.Valid()
    ensures Backtested(rm.trades, rm.initialCapital, rm.maxConsecutiveLosses)
    ensures rm.consecutiveLosses == LossStreak(rm.trades)
    ensures rm.trades == old(rm.trades) + [closed]
    ensures closed == DayTrade(|old(rm.trades)| + 1, s, quantity, day, hitTarget)
    ensures rm.capital == old(rm.capital) + closed.pnl
    ensures rm.consecutiveLosses == if closed.pnl > 0.0 then 0 else old(rm.consecutiveLosses) + 1
    ensures rm.dailyTrades == old(rm.dailyTrades) + 1
  {
    ghost var before := rm.trades;
    assert LossStreak(before) < rm.maxConsecutiveLosses;
    assert rm.initialCapital + ClosedPnl(before) >= rm.initialCapital * MinCapitalFraction;
    var trade := rm.AddTrade(s.symbol, OrderOf(s), quantity, DayStart(day));
    assert rm.trades[trade.id - 1] == trade;
    var exitPrice := SimulateExit(s, hitTarget(trade.id));
    var result := rm.CloseTrade(trade.id, exitPrice, DayStart(day));
    assert result.ClosedTrade?;
    closed := result.trade;
    assert (before + [trade])[|before| := closed] == before + [closed];
    AppendClosed(before, closed, rm.initialCapital, rm.maxConsecutiveLosses);
  }

  /** The limits a risk manager enforces, as a configuration. */
  function LimitsOf(rm: RiskManager): RiskConfig
  {
    RiskConfig(rm.config.riskPerTradePercent, rm.maxTradesPerDay, rm.maxConsecutiveLosses)
  }

  /** What the risk manager knows between two signals: the id the next trade
      gets, the capital, the loss streak and the trades of the day. */
  datatype Desk = Desk(nextId: int, capital: real, streak: nat, dailyTrades: nat)

  /** The desk of a manager. */
  function DeskOf(rm: RiskManager): Desk
    reads rm
  {
    Desk(|rm.trades| + 1, rm.capital, rm.consecutiveLosses, rm.dailyTrades)
  }

  /** The desk after a trade closes: the next id, its pnl on the capital, the
      streak restarted on a win and grown on a loss, one more trade today. */
  function AfterTrade(d: Desk, c: Trade): Desk
  {
    Desk(d.nextId + 1, d.capital + c.pnl, if c.pnl > 0.0 then 0 else d.streak + 1, d.dailyTrades + 1)
  }

  /** What one turn of the loop does with a signal. */
  datatype Decision = Stop | Raise | Skip | Take(quantity: int)

  /** can_take_trade first, then validate_signal at the current capital. */
  function Decide(initialCapital: real, limits: RiskConfig, s: Signals.ScoredSignal, d: Desk): Decision
  {
    if Admit(d.dailyTrades, limits.maxTradesPerDay, d.streak, limits.maxConsecutiveLosses,
             d.capital, initialCapital) != Admitted then Stop
    else
      match ValidateSignal(OrderOf(s), d.capital, limits.riskPerTradePercent)
      case CheckFault => Raise
      case Rejected(_) => Skip
      case Accepted(position, _, _) => Take(position.quantity)
  }

  /** The decision rule of a manager with these limits. */
  function Rule(initialCapital: real, limits: RiskConfig): (Signals.ScoredSignal, Desk) -> Decision
  {
    (s, d) => Decide(initialCapital, limits, s, d)
  }

  /** A decision rule that decides as Decide does. */
  ghost predicate Follows(decide: (Signals.ScoredSignal, Desk) -> Decision, initialCapital: real, limits: RiskConfig)
  {
    forall s, d {:trigger Decide(initialCapital, limits, s, d)} :: decide(s, d) == Decide(initialCapital, limits, s, d)
  }

  /** The manager's rule decides as Decide does. */
  lemma RuleFollows(initialCapital: real, limits: RiskConfig)
    ensures Follows(Rule(initialCapital, limits), initialCapital, limits)
  {
  }

  /** The trades a day's accepted signals leave, by id, signal and quantity. */
  function Closer(day: int, hitTarget: int -> bool): (int, Signals.ScoredSignal, int) -> Trade
  {
    (id, s, quantity) => DayTrade(id, s, quantity, day, hitTarget)
  }

  /** A way of closing trades that closes them as DayTrade does. */
  ghost predicate Closes(close: (int, Signals.ScoredSignal, int) -> Trade, day: int, hitTarget: int -> bool)
  {
    forall id, s, quantity {:trigger DayTrade(id, s, quantity, day, hitTarget)} ::
      close(id, s, quantity) == DayTrade(id, s, quantity, day, hitTarget)
  }

  /** The day's closer closes trades as DayTrade does. */
  lemma CloserCloses(day: int, hitTarget: int -> bool)
    ensures Closes(Closer(day, hitTarget), day, hitTarget)
  {
  }

  /** What a closer that closes as DayTrade does leaves for a signal: a
      closed trade with that id, symbol, order and quantity, exited at the
      target or the stop at the start of the day. */
  lemma ClosedAsDayTrade(close: (int, Signals.ScoredSignal, int) -> Trade, day: int, hitTarget: int -> bool,
                         id: int, s: Signals.ScoredSignal, quantity: int)
    requires Closes(close, day, hitTarget)
    ensures var c := close(id, s, quantity);
            c.id == id && c.symbol == s.symbol && c.order == OrderOf(s) && c.quantity == quantity &&
            c.status == Closed && (c.exitPrice == Some(c.order.target) || c.exitPrice == Some(c.order.stopLoss)) &&
            c.entryTime == DayStart(day) && c.exitTime == Some(DayStart(day))
  {
    assert close(id, s, quantity) == DayTrade(id, s, quantity, day, hitTarget);
  }

  /** How a day's signals end up: whether sizing raised, the trades taken in
      order, the position of the signal the loop stopped at (the number of
      signals when it ran through them all) and the desk at that point. */
  datatype DayOutcome = DayOutcome(fault: bool, taken: seq<Trade>, stoppedAt: nat, last: Desk)

  /** The for loop over the day's signals from a desk on, under a decision
      rule and a way of closing trades: stop at the first refusal, stop with
      a fault where sizing raises, skip a rejected signal, trade an accepted
      one. The backtest's own run is DayRun(Rule(..), Closer(..), ..). */
  function DayRun(decide: (Signals.ScoredSignal, Desk) -> Decision, close: (int, Signals.ScoredSignal, int) -> Trade,
                  signals: seq<Signals.ScoredSignal>, d: Desk): (r: DayOutcome)
    decreases |signals|
  {
    if signals == [] then DayOutcome(false, [], 0, d)
    else
      match decide(signals[0], d)
      case Stop => DayOutcome(false, [], 0, d)
      case Raise => DayOutcome(true, [], 0, d)
      case Skip =>
        var rest := DayRun(decide, close, signals[1..], d);
        rest.(stoppedAt := rest.stoppedAt + 1)
      case Take(quantity) =>
        var c := close(d.nextId, signals[0], quantity);
        var rest := DayRun(decide, close, signals[1..], AfterTrade(d, c));
        rest.(taken := [c] + rest.taken, stoppedAt := rest.stoppedAt + 1)
  }

  /** A rule and a closer that agree with the manager's run the day as the
      manager does. */
  lemma {:induction false} DayRunFollows(decide: (Signals.ScoredSignal, Desk) -> Decision,
                                         close: (int, Signals.ScoredSignal, int) -> Trade, initialCapital: real,
                                         limits: RiskConfig, day: int, hitTarget: int -> bool,
                                         signals: seq<Signals.ScoredSignal>, d: Desk)
    requires Follows(decide, initialCapital, limits) && Closes(close, day, hitTarget)
    ensures DayRun(decide, close, signals, d) == DayRun(Rule(initialCapital, limits), Closer(day, hitTarget), signals, d)
    decreases |signals|
  {
    if signals != [] {
      assert decide(signals[0], d) == Decide(initialCapital, limits, signals[0], d);
      match Decide(initialCapital, limits, signals[0], d)
      case Stop =>
      case Raise =>
      case Skip =>
        DayRunFollows(decide, close, initialCapital, limits, day, hitTarget, signals[1..], d);
      case Take(quantity) =>
        var c := DayTrade(d.nextId, signals[0], quantity, day, hitTarget);
        assert close(d.nextId, signals[0], quantity) == c;
        DayRunFollows(decide, close, initialCapital, limits, day, hitTarget, signals[1..], AfterTrade(d, c));
    }
  }

  /** Why the loop stopped: it ran through every signal, or it stopped at a
      signal either because the risk manager refused it or, with a fault,
      because its sizing raised while the manager admitted it. */
  lemma {:induction false} DayRunStops(decide: (Signals.ScoredSignal, Desk) -> Decision,
                                       close: (int, Signals.ScoredSignal, int) -> Trade, initialCapital: real,
                                       limits: RiskConfig, signals: seq<Signals.ScoredSignal>, d: Desk)
    requires Follows(decide, initialCapital, limits)
    ensures var r := DayRun(decide, close, signals, d);
            r.stoppedAt <= |signals| && (r.fault ==> r.stoppedAt < |signals|) &&
            (r.stoppedAt < |signals| ==>
               var admission := Admit(r.last.dailyTrades, limits.maxTradesPerDay, r.last.streak,
                                      limits.maxConsecutiveLosses, r.last.capital, initialCapital);
               if r.fault then
                 admission == Admitted &&
                 ValidateSignal(OrderOf(signals[r.stoppedAt]), r.last.capital, limits.riskPerTradePercent) == CheckFault
               else admission != Admitted)
    decreases |signals|
  {
    if signals != [] {
      var r := DayRun(decide, close, signals, d);
      assert decide(signals[0], d) == Decide(initialCapital, limits, signals[0], d);
      match Decide(initialCapital, limits, signals[0], d)
      case Stop =>
      case Raise =>
      case Skip =>
        DayRunStops(decide, close, initialCapital, limits, signals[1..], d);
        var rest := DayRun(decide, close, signals[1..], d);
        if rest.stoppedAt < |signals[1..]| {
          assert signals[1..][rest.stoppedAt] == signals[r.stoppedAt];
        }
      case Take(quantity) =>
        var c := close(d.nextId, signals[0], quantity);
        DayRunStops(decide, close, initialCapital, limits, signals[1..], AfterTrade(d, c));
        var rest := DayRun(decide, close, signals[1..], AfterTrade(d, c));
        if rest.stoppedAt < |signals[1..]| {
          assert signals[1..][rest.stoppedAt] == signals[r.stoppedAt];
        }
    }
  }

  /** The symbol and order of each trade. */
  function TradeKeys(ts: seq<Trade>): (keys: seq<(string, Order)>)
    ensures |keys| == |ts|
    ensures forall i :: 0 <= i < |ts| ==> keys[i] == (ts[i].symbol, ts[i].order)
  {
    seq(|ts|, i requires 0 <= i < |ts| => (ts[i].symbol, ts[i].order))
  }

  /** The symbol and order each signal would open. */
  function SignalKeys(signals: seq<Signals.ScoredSignal>): (keys: seq<(string, Order)>)
    ensures |keys| == |signals|
    ensures forall i :: 0 <= i < |signals| ==> keys[i] == (signals[i].symbol, OrderOf(signals[i]))
  {
    seq(|signals|, i requires 0 <= i < |signals| => (signals[i].symbol, OrderOf(signals[i])))
  }

  /** A signal is taken only while the day is under its trade limit. */
  lemma TakeUnderLimit(decide: (Signals.ScoredSignal, Desk) -> Decision, initialCapital: real,
                       limits: RiskConfig, s: Signals.ScoredSignal, d: Desk)
    requires Follows(decide, initialCapital, limits)
    ensures decide(s, d).Take? ==> d.dailyTrades < limits.maxTradesPerDay
  {
    assert decide(s, d) == Decide(initialCapital, limits, s, d);
  }

  /** The trades of a day are taken from its signals in score order, at
      most one per signal and within the daily limit, with consecutive ids,
      each closed at its target or its stop at the start of the day. */
  lemma {:induction false} DayRunTrades(decide: (Signals.ScoredSignal, Desk) -> Decision,
                                        close: (int, Signals.ScoredSignal, int) -> Trade, initialCapital: real,
                                        limits: RiskConfig, day: int, hitTarget: int -> bool,
                                        signals: seq<Signals.ScoredSignal>, d: Desk)
    requires Follows(decide, initialCapital, limits) && Closes(close, day, hitTarget)
    ensures var r := DayRun(decide, close, signals, d);
            |r.taken| <= r.stoppedAt &&
            (r.taken == [] || d.dailyTrades + |r.taken| <= limits.maxTradesPerDay) &&
            r.last.nextId == d.nextId + |r.taken| && r.last.dailyTrades == d.dailyTrades + |r.taken| &&
            IsSubsequence(TradeKeys(r.taken), SignalKeys(signals)) &&
            forall k :: 0 <= k < |r.taken| ==>
              r.taken[k].id == d.nextId + k && r.taken[k].status == Closed &&
              (r.taken[k].exitPrice == Some(r.taken[k].order.target) ||
               r.taken[k].exitPrice == Some(r.taken[k].order.stopLoss)) &&
              r.taken[k].entryTime == DayStart(day) && r.taken[k].exitTime == Some(DayStart(day))
    decreases |signals|
  {
    if signals != [] {
      var r := DayRun(decide, close, signals, d);
      var keys := SignalKeys(signals);
      assert SignalKeys(signals[1..]) == keys[1..];
      assert keys == [keys[0]] + keys[1..];
      TakeUnderLimit(decide, initialCapital, limits, signals[0], d);
      match decide(signals[0], d)
      case Stop =>
      case Raise =>
      case Skip =>
        DayRunTrades(decide, close, initialCapital, limits, day, hitTarget, signals[1..], d);
        SubsequenceSkipFirst(TradeKeys(r.taken), keys[1..], keys[0]);
      case Take(quantity) =>
        var c := close(d.nextId, signals[0], quantity);
        ClosedAsDayTrade(close, day, hitTarget, d.nextId, signals[0], quantity);
        DayRunTrades(decide, close, initialCapital, limits, day, hitTarget, signals[1..], AfterTrade(d, c));
        var rest := DayRun(decide, close, signals[1..], AfterTrade(d, c));
        assert r.taken == [c] + rest.taken;
        ConsTail(c, rest.taken);
        assert TradeKeys(r.taken)[1..] == TradeKeys(rest.taken);
    }
  }

  /** The day's counts and trade bounds: at most one trade per signal and no
      more than the daily limit from a fresh count, and a fault only where
      there was a signal. */
  lemma DayRunCounts(decide: (Signals.ScoredSignal, Desk) -> Decision,
                     close: (int, Signals.ScoredSignal, int) -> Trade, initialCapital: real, limits: RiskConfig,
                     day: int, hitTarget: int -> bool, signals: seq<Signals.ScoredSignal>, d: Desk)
    requires Follows(decide, initialCapital, limits) && Closes(close, day, hitTarget)
    ensures var r := DayRun(decide, close, signals, d);
            |r.taken| <= |signals| && (r.fault ==> signals != []) &&
            (r.taken == [] || d.dailyTrades + |r.taken| <= limits.maxTradesPerDay)
  {
    DayRunStops(decide, close, initialCapital, limits, signals, d);
    DayRunTrades(decide, close, initialCapital, limits, day, hitTarget, signals, d);
  }

  /** The run from the i-th signal on, by what the rule decides there: a stop
      or a fault ends the day, a skip goes on from the same desk, a trade
      comes first and the day goes on from the desk after it. */
  lemma DayRunAt(decide: (Signals.ScoredSignal, Desk) -> Decision, close: (int, Signals.ScoredSignal, int) -> Trade,
                 signals: seq<Signals.ScoredSignal>, i: nat, d: Desk)
    requires i < |signals|
    ensures var here := DayRun(decide, close, signals[i..], d);
            match decide(signals[i], d)
            case Stop => here == DayOutcome(false, [], 0, d)
            case Raise => here == DayOutcome(true, [], 0, d)
            case Skip =>
              var next := DayRun(decide, close, signals[i + 1..], d);
              here == next.(stoppedAt := next.stoppedAt + 1)
            case Take(quantity) =>
              var c := close(d.nextId, signals[i], quantity);
              var next := DayRun(decide, close, signals[i + 1..], AfterTrade(d, c));
              here == next.(taken := [c] + next.taken, stoppedAt := next.stoppedAt + 1)
  {
    assert signals[i..][0] == signals[i] && signals[i..][1..] == signals[i + 1..];
  }

  /** A run seen part way: the trades taken and the signals passed so far
      in front of the rest of the run. */
  function Join(today: seq<Trade>, passed: nat, rest: DayOutcome): (r: DayOutcome)
    ensures r.taken == today + rest.taken && r.stoppedAt == passed + rest.stoppedAt
    ensures r.fault == rest.fault && r.last == rest.last
  {
    rest.(taken := today + rest.taken, stoppedAt := passed + rest.stoppedAt)
  }

  /** One turn of the loop seen on the run: a stop or a fault leaves the rest
      of the day empty, a skip or a trade moves the split one signal on. */
  lemma RunStep(decide: (Signals.ScoredSignal, Desk) -> Decision, close: (int, Signals.ScoredSignal, int) -> Trade,
                signals: seq<Signals.ScoredSignal>, i: nat, d: Desk, today: seq<Trade>, full: DayOutcome, closed: Trade)
    requires i < |signals|
    requires full == Join(today, i, DayRun(decide, close, signals[i..], d))
    requires decide(signals[i], d).Take? ==> closed == close(d.nextId, signals[i], decide(signals[i], d).quantity)
    ensures decide(signals[i], d) in {Stop, Raise} ==>
              full == Join(today, i, DayOutcome(decide(signals[i], d) == Raise, [], 0, d))
    ensures decide(signals[i], d) == Skip ==>
              full == Join(today, i + 1, DayRun(decide, close, signals[i + 1..], d))
    ensures decide(signals[i], d).Take? ==>
              full == Join(today + [closed], i + 1, DayRun(decide, close, signals[i + 1..], AfterTrade(d, closed)))
  {
    DayRunAt(decide, close, signals, i, d);
    match decide(signals[i], d)
    case Stop =>
    case Raise =>
    case Skip =>
    case Take(quantity) =>
      var next := DayRun(decide, close, signals[i + 1..], AfterTrade(d, closed));
      ConcatAssoc(today, [closed], next.taken);
  }

  /** The body of the loop for one signal: ask the risk manager, validate
      the signal at the current capital, and trade it when it is accepted.
      The decision is the one the manager's rule makes on its desk, and the
      trade the one the day's closer makes. */
  method Turn(rm: RiskManager, ghost decide: (Signals.ScoredSignal, Desk) -> Decision,
              ghost close: (int, Signals.ScoredSignal, int) -> Trade, signal: Signals.ScoredSignal,
              day: int, hitTarget: int -> bool)
    returns (decision: Decision, closed: Trade)
    requires Follows(decide, rm.initialCapital, LimitsOf(rm)) && Closes(close, day, hitTarget)
    requires rm.Valid()
    requires Backtested(rm.trades, rm.initialCapital, rm.maxConsecutiveLosses)
    requires rm.consecutiveLosses == LossStreak(rm.trades)
    modifies rm
    ensures rm.Valid()
    ensures Backtested(rm.trades, rm.initialCapital, rm.maxConsecutiveLosses)
    ensures rm.consecutiveLosses == LossStreak(rm.trades)
    ensures decision == decide(signal, old(DeskOf(rm)))
    ensures decision.Take? ==>
              closed == close(|old(rm.trades)| + 1, signal, decision.quantity) && closed.status == Closed &&
              rm.trades == old(rm.trades) + [closed] && DeskOf(rm) == AfterTrade(old(DeskOf(rm)), closed)
    ensures !decision.Take? ==> rm.trades == old(rm.trades) && DeskOf(rm) == old(DeskOf(rm))
  {
    assert decide(signal, DeskOf(rm)) == Decide(rm.initialCapital, LimitsOf(rm), signal, DeskOf(rm));
    closed := OpenTrade(0, signal.symbol, OrderOf(signal), 0, DayStart(day));
    if rm.CanTakeTrade() != Admitted {
      return Stop, closed;
    }
    var check := ValidateSignal(OrderOf(signal), rm.capital, rm.config.riskPerTradePercent);
    match check
    case CheckFault =>
      decision := Raise;
    case Rejected(_) =>
      decision := Skip;
    case Accepted(position, _, _) =>
      decision := Take(position.quantity);
      closed := TakeTrade(rm, signal, position.quantity, day, hitTarget);
      assert closed == DayTrade(|old(rm.trades)| + 1, signal, position.quantity, day, hitTarget);
  }

  /** One pass through the body of the for loop over the day's signals:
      the turn, then the day's tallies. stop is a refusal or the sizing
      fault; otherwise the trade, if any, joins today's and the run goes on
      at the next signal. */
  method Pass(rm: RiskManager, ghost decide: (Signals.ScoredSignal, Desk) -> Decision,
              ghost close: (int, Signals.ScoredSignal, int) -> Trade,
              signals: seq<Signals.ScoredSignal>, i: nat, day: int, hitTarget: int -> bool,
              ghost start: seq<Trade>, ghost today: seq<Trade>, ghost full: DayOutcome, taken: nat, dayPnl: real)
    returns (stop: bool, fault: bool, ghost nowToday: seq<Trade>, nowTaken: nat, nowPnl: real)
    requires i < |signals|
    requires Follows(decide, rm.initialCapital, LimitsOf(rm)) && Closes(close, day, hitTarget)
    requires rm.Valid()
    requires Backtested(rm.trades, rm.initialCapital, rm.maxConsecutiveLosses)
    requires rm.consecutiveLosses == LossStreak(rm.trades)
    requires rm.trades == start + today && taken == |today| && dayPnl == ClosedPnl(today)
    requires full == Join(today, i, DayRun(decide, close, signals[i..], DeskOf(rm)))
    modifies rm
    ensures rm.Valid()
    ensures Backtested(rm.trades, rm.initialCapital, rm.maxConsecutiveLosses)
    ensures rm.consecutiveLosses == LossStreak(rm.trades)
    ensures rm.trades == start + nowToday && nowTaken == |nowToday| && nowPnl == ClosedPnl(nowToday)
    ensures fault ==> stop
    ensures stop ==> nowToday == today && full == Join(today, i, DayOutcome(fault, [], 0, DeskOf(rm)))
    ensures !stop ==> full == Join(nowToday, i + 1, DayRun(decide, close, signals[i + 1..], DeskOf(rm)))
  {
    ghost var desk := DeskOf(rm);
    var decision, closed := Turn(rm, decide, close, signals[i], day, hitTarget);
    RunStep(decide, close, signals, i, desk, today, full, closed);
    stop, fault, nowToday, nowTaken, nowPnl := false, false, today, taken, dayPnl;
    match decision
    case Stop =>
      stop := true;
    case Raise =>
      stop, fault := true, true;
    case Skip =>
    case Take(_) =>
      ConcatAssoc(start, today, [closed]);
      ClosedPnlSnoc(today, closed);
      nowToday := today + [closed];
      nowPnl := dayPnl + closed.pnl;
      nowTaken := taken + 1;
  }

  /** The for loop over the day's signals: stop at the first refusal, skip
      a rejected signal, trade an accepted one. fault is the exception a
      zero entry raises in sizing, which abandons the day. The trades it
      appends, the fault and the desk it leaves are those of DayRun. */
  method ExecuteSignals(rm: RiskManager, ghost decide: (Signals.ScoredSignal, Desk) -> Decision,
                        ghost close: (int, Signals.ScoredSignal, int) -> Trade,
                        signals: seq<Signals.ScoredSignal>, day: int, hitTarget: int -> bool)
    returns (fault: bool, taken: nat, dayPnl: real)
    requires Follows(decide, rm.initialCapital, LimitsOf(rm)) && Closes(close, day, hitTarget)
    requires rm.Valid()
    requires Backtested(rm.trades, rm.initialCapital, rm.maxConsecutiveLosses)
    requires rm.consecutiveLosses == LossStreak(rm.trades)
    modifies rm
    ensures rm.Valid()
    ensures Backtested(rm.trades, rm.initialCapital, rm.maxConsecutiveLosses)
    ensures rm.consecutiveLosses == LossStreak(rm.trades)
    ensures var r := DayRun(decide, close, signals, old(DeskOf(rm)));
            rm.trades == old(rm.trades) + r.taken && fault == r.fault && taken == |r.taken| &&
            DeskOf(rm) == r.last && dayPnl == ClosedPnl(r.taken)
    ensures rm.capital == old(rm.capital) + dayPnl
  {
    fault, taken, dayPnl := false, 0, 0.0;
    ghost var start := rm.trades;
    ghost var today: seq<Trade> := [];
    ghost var full := DayRun(decide, close, signals, DeskOf(rm));
    assert signals[0..] == signals;
    assert start + [] == start;
    var i := 0;
    while i < |signals|
      invariant 0 <= i <= |signals|
      invariant rm.Valid()
      invariant Backtested(rm.trades, rm.initialCapital, rm.maxConsecutiveLosses)
      invariant rm.consecutiveLosses == LossStreak(rm.trades)
      invariant rm.trades == start + today && taken == |today| && dayPnl == ClosedPnl(today)
      invariant !fault && full == Join(today, i, DayRun(decide, close, signals[i..], DeskOf(rm)))
    {
      var stop;
      stop, fault, today, taken, dayPnl := Pass(rm, decide, close, signals, i, day, hitTarget, start, today, full, taken, dayPnl);
      if stop {
        assert today + [] == today;
        break;
      }
      i := i + 1;
    }
    assert today + [] == today;
    ClosedPnlJoin(start, today);
  }

  /** What the three stages of a day produce: the pre-market candidates,
      the live-market candidates (none without candidates) and the signals
      in score order (none without live candidates). */
  datatype Funnel = Funnel(candidates: seq<PreMarket.ScoredStock>, live: seq<LiveMarket.LocatedStock>,
                           signals: seq<Signals.ScoredSignal>)

  function DayFunnel(cfg: BacktestConfig, market: PreMarket.Market, day: int): (f: Funnel)
    requires PreMarket.ValidConfig(cfg.screen)
    ensures f.candidates == [] ==> f.live == []
    ensures f.live == [] ==> f.signals == []
  {
    var trend := PreMarket.IndexTrend(PreMarket.IndexContextOf(cfg.screen.indices, market, cfg.screen), cfg.screen);
    var candidates := PreMarket.Screening(cfg.universe, market, day, cfg.news, cfg.screen, trend);
    var live := if candidates == [] then [] else LiveMarket.Filtering(candidates, market, day, cfg.live);
    var signals :=
      if live == [] then []
      else SortDesc(FilterMap(SignalCandidates(live), Signals.CandidateSignalFn(cfg.signal)), Signals.ScoreKey);
    Funnel(candidates, live, signals)
  }

  /** One weekday of run_backtest after the counters are reset: the three
      stages, then the signals under the manager's rule. The record counts
      what each stage produced and the trades the day took; there is none
      exactly when sizing raised. */
  method RunDay(rm: RiskManager, ghost decide: (Signals.ScoredSignal, Desk) -> Decision,
                ghost close: (int, Signals.ScoredSignal, int) -> Trade, cfg: BacktestConfig,
                market: PreMarket.Market, day: int, hitTarget: int -> bool)
    returns (record: Option<DayRecord>)
    requires PreMarket.ValidConfig(cfg.screen)
    requires Follows(decide, rm.initialCapital, LimitsOf(rm)) && Closes(close, day, hitTarget)
    requires rm.Valid()
    requires Backtested(rm.trades, rm.initialCapital, rm.maxConsecutiveLosses)
    requires rm.consecutiveLosses == LossStreak(rm.trades)
    modifies rm
    ensures rm.Valid()
    ensures Backtested(rm.trades, rm.initialCapital, rm.maxConsecutiveLosses)
    ensures rm.consecutiveLosses == LossStreak(rm.trades)
    ensures var f := DayFunnel(cfg, market, day);
            var r := DayRun(decide, close, f.signals, old(DeskOf(rm)));
            rm.trades == old(rm.trades) + r.taken && DeskOf(rm) == r.last &&
            (record.None? <==> r.fault) &&
            (record.Some? ==>
               record.value == DayRecord(day, |f.candidates|, |f.live|, |f.signals|, |r.taken|, ClosedPnl(r.taken)))
  {
    var candidates := PreMarket.RunScreening(cfg.universe, market, day, cfg.news, cfg.screen);
    if candidates == [] {
      return Some(DayRecord(day, 0, 0, 0, 0, 0.0));
    }
    var live := LiveMarket.RunFiltering(candidates, market, day, cfg.live);
    if live == [] {
      return Some(DayRecord(day, |candidates|, 0, 0, 0, 0.0));
    }
    var signals := Signals.GenerateSignals(SignalCandidates(live), cfg.signal);
    if signals == [] {
      return Some(DayRecord(day, |candidates|, |live|, 0, 0, 0.0));
    }
    var fault, taken, dayPnl := ExecuteSignals(rm, decide, close, signals, day, hitTarget);
    if fault {
      return None;
    }
    record := Some(DayRecord(day, |candidates|, |live|, |signals|, taken, dayPnl));
  }

  function SignalCandidates(live: seq<LiveMarket.LocatedStock>): (r: seq<Signals.SignalCandidate>)
    ensures |r| == |live|
    ensures forall i :: 0 <= i < |live| ==> r[i] == LiveMarket.SignalCandidateOf(live[i])
  {
    seq(|live|, i requires 0 <= i < |live| => LiveMarket.SignalCandidateOf(live[i]))
  }

  // ------------------------------------------------------------ metrics

  /** np.cumsum. */
  function Cumulative(xs: seq<real>): (c: seq<real>)
    ensures |c| == |xs|
    ensures forall i :: 0 <= i < |c| ==> c[i] == Sum(xs[..i + 1])
  {
    seq(|xs|, i requires 0 <= i < |xs| => Sum(xs[..i + 1]))
  }

  /** np.maximum.accumulate. */
  function RunningMax(c: seq<real>): (m: seq<real>)
    ensures |m| == |c|
    ensures forall j :: 0 <= j < |c| ==> m[j] == MaxOf(c[..j + 1])
  {
    seq(|c|, j requires 0 <= j < |c| => MaxOf(c[..j + 1]))
  }

  /** The largest drop of the cumulative pnl below its running maximum; 0
      without records. */
  function MaxDrawdown(pnls: seq<real>): real
  {
    if pnls == [] then 0.0
    else
      var c := Cumulative(pnls);
      var m := RunningMax(c);
      MaxOf(seq(|c|, j requires 0 <= j < |c| => m[j] - c[j]))
  }

  /** The maximum drawdown is the largest fall of the cumulative pnl from
      any day to any later day (or the same day, so it is never negative). */
  lemma MaxDrawdownIsLargestFall(pnls: seq<real>)
    ensures MaxDrawdown(pnls) >= 0.0
    ensures forall i, j :: 0 <= i <= j < |pnls| ==>
              Cumulative(pnls)[i] - Cumulative(pnls)[j] <= MaxDrawdown(pnls)
    ensures pnls != [] ==>
              exists i, j :: 0 <= i <= j < |pnls| && Cumulative(pnls)[i] - Cumulative(pnls)[j] == MaxDrawdown(pnls)
  {
    if pnls != [] {
      var c := Cumulative(pnls);
      var m := RunningMax(c);
      var dd := seq(|c|, j requires 0 <= j < |c| => m[j] - c[j]);
      assert MaxDrawdown(pnls) == MaxOf(dd);
      forall i, j | 0 <= i <= j < |pnls|
        ensures c[i] - c[j] <= MaxOf(dd)
      {
        assert c[..j + 1][i] == c[i];
        assert c[i] <= m[j];
        assert dd[j] <= MaxOf(dd);
      }
      assert c[..1][0] == c[0];
      assert dd[0] == 0.0;
      var j :| 0 <= j < |dd| && dd[j] == MaxOf(dd);
      var i :| 0 <= i < |c[..j + 1]| && c[..j + 1][i] == m[j];
      assert c[i] - c[j] == MaxOf(dd);
    }
  }

  function Pnls(records: seq<DayRecord>): (r: seq<real>)
    ensures |r| == |records|
    ensures forall i :: 0 <= i < |r| ==> r[i] == records[i].pnl
  {
    seq(|records|, i requires 0 <= i < |records| => records[i].pnl)
  }

  function TotalTrades(records: seq<DayRecord>): nat
  {
    if records == [] then 0 else TotalTrades(records[..|records| - 1]) + records[|records| - 1].trades
  }

  function TotalSignals(records: seq<DayRecord>): nat
  {
    if records == [] then 0 else TotalSignals(records[..|records| - 1]) + records[|records| - 1].signals
  }

  /** Days on which at least one trade was taken. */
  function TradingDays(records: seq<DayRecord>): nat
  {
    if records == [] then 0
    else TradingDays(records[..|records| - 1]) + (if records[|records| - 1].trades > 0 then 1 else 0)
  }

  /** Trading days are among the days and cost at least one trade each, and
      no day trades more than it has signals. */
  lemma {:induction false} TradingDaysBounded(records: seq<DayRecord>)
    requires forall i :: 0 <= i < |records| ==> records[i].trades <= records[i].signals
    ensures TradingDays(records) <= |records|
    ensures TradingDays(records) <= TotalTrades(records) <= TotalSignals(records)
    decreases |records|
  {
    if records != [] {
      TradingDaysBounded(records[..|records| - 1]);
    }
  }

  /** sharpeRatio is Some(0.0) with at most one record; beyond that it is a
      floating-point statistic that is not part of this model (None). */
  datatype Metrics = Metrics(summary: Summary, totalDays: nat, tradingDays: nat, totalSignals: nat,
                             totalTrades: nat, maxDrawdown: real, sharpeRatio: Option<real>,
                             dailyResults: seq<DayRecord>, trades: seq<Trade>)

  /** _calculate_metrics. */
  function CalculateMetrics(summary: Summary, closed: seq<Trade>, records: seq<DayRecord>): (m: Metrics)
    ensures m.totalDays == |records| && m.dailyResults == records && m.trades == closed && m.summary == summary
    ensures m.maxDrawdown == MaxDrawdown(Pnls(records))
    ensures |records| <= 1 <==> m.sharpeRatio == Some(0.0)
    ensures m.tradingDays == TradingDays(records) && m.totalTrades == TotalTrades(records) &&
            m.totalSignals == TotalSignals(records)
  {
    Metrics(summary, |records|, TradingDays(records), TotalSignals(records), TotalTrades(records),
            MaxDrawdown(Pnls(records)), if |records| <= 1 then Some(0.0) else None, records, closed)
  }

  // ------------------------------------------------------------ the run

  /** The weekdays among the days from..to-1. */
  function WeekdaysBetween(from: int, to: int): nat
    decreases to - from
  {
    if from >= to then 0 else (if IsWeekday(from) then 1 else 0) + WeekdaysBetween(from + 1, to)
  }

  lemma {:induction false} WeekdaysStep(start: int, d: int)
    requires start <= d
    ensures WeekdaysBetween(start, d + 1) == WeekdaysBetween(start, d) + (if IsWeekday(d) then 1 else 0)
    decreases d - start
  {
    if start < d {
      WeekdaysStep(start + 1, d);
    }
  }

  /** The daily results of the days start..upTo-1 beside the days that
      raised: every weekday is one or the other, in day order, none on a
      weekend; each record counts what the three stages of its day produced
      (as funnel gives them) and no more trades than signals or the daily
      limit, and a day raised only where it had signals. */
  ghost predicate DailyLog(records: seq<DayRecord>, faulted: set<int>, start: int, upTo: int,
                           funnel: int -> Funnel, maxTradesPerDay: int)
  {
    |records| + |faulted| == WeekdaysBetween(start, upTo) &&
    (forall d :: d in faulted ==> start <= d < upTo && IsWeekday(d) && funnel(d).signals != []) &&
    (forall i :: 0 <= i < |records| ==>
       start <= records[i].day < upTo && IsWeekday(records[i].day) && records[i].day !in faulted) &&
    (forall i, j :: 0 <= i < j < |records| ==> records[i].day < records[j].day) &&
    (forall i :: 0 <= i < |records| ==> Counted(records[i], funnel(records[i].day), maxTradesPerDay))
  }

  /** A day's record against its stages. */
  predicate Counted(record: DayRecord, f: Funnel, maxTradesPerDay: int)
  {
    record.preMarketCandidates == |f.candidates| && record.liveMarketCandidates == |f.live| &&
    record.signals == |f.signals| && record.trades <= record.signals &&
    (record.trades == 0 || record.trades <= maxTradesPerDay) &&
    (record.trades == 0 ==> record.pnl == 0.0)
  }

  /** The stages of every day of a market. */
  function FunnelOf(cfg: BacktestConfig, market: int -> PreMarket.Market): int -> Funnel
    requires PreMarket.ValidConfig(cfg.screen)
  {
    d => DayFunnel(cfg, market(d), d)
  }

  /** A funnel that gives every day's stages as DayFunnel does. */
  ghost predicate Funnels(funnel: int -> Funnel, cfg: BacktestConfig, market: int -> PreMarket.Market)
    requires PreMarket.ValidConfig(cfg.screen)
  {
    forall d {:trigger DayFunnel(cfg, market(d), d)} :: funnel(d) == DayFunnel(cfg, market(d), d)
  }

  lemma FunnelOfFunnels(cfg: BacktestConfig, market: int -> PreMarket.Market)
    requires PreMarket.ValidConfig(cfg.screen)
    ensures Funnels(FunnelOf(cfg, market), cfg, market)
  {
  }

  /** A weekend adds nothing to the log. */
  lemma LogWeekend(records: seq<DayRecord>, faulted: set<int>, start: int, current: int,
                   funnel: int -> Funnel, maxTradesPerDay: int)
    requires start <= current && !IsWeekday(current)
    requires DailyLog(records, faulted, start, current, funnel, maxTradesPerDay)
    ensures DailyLog(records, faulted, start, current + 1, funnel, maxTradesPerDay)
  {
    WeekdaysStep(start, current);
  }

  /** A weekday that ran to its end appends its record. */
  lemma LogRecord(records: seq<DayRecord>, faulted: set<int>, start: int, current: int,
                  funnel: int -> Funnel, maxTradesPerDay: int, record: DayRecord)
    requires start <= current && IsWeekday(current) && record.day == current
    requires Counted(record, funnel(current), maxTradesPerDay)
    requires DailyLog(records, faulted, start, current, funnel, maxTradesPerDay)
    ensures DailyLog(records + [record], faulted, start, current + 1, funnel, maxTradesPerDay)
  {
    WeekdaysStep(start, current);
    var next := records + [record];
    assert forall i :: 0 <= i < |records| ==> next[i] == records[i];
    assert current !in faulted;
  }

  /** A weekday that raised joins the faulted days. */
  lemma LogFault(records: seq<DayRecord>, faulted: set<int>, start: int, current: int,
                 funnel: int -> Funnel, maxTradesPerDay: int)
    requires start <= current && IsWeekday(current) && funnel(current).signals != []
    requires DailyLog(records, faulted, start, current, funnel, maxTradesPerDay)
    ensures DailyLog(records, faulted + {current}, start, current + 1, funnel, maxTradesPerDay)
  {
    WeekdaysStep(start, current);
    assert current !in faulted;
    assert |faulted + {current}| == |faulted| + 1;
  }

  /** The records against the ledger: they count no more trades than it
      holds, and when no day raised they count all of them and add up to
      its realised pnl. */
  ghost predicate Balanced(records: seq<DayRecord>, faulted: set<int>, ledger: seq<Trade>)
  {
    TotalTrades(records) <= |ledger| &&
    (faulted == {} ==> TotalTrades(records) == |ledger| && Sum(Pnls(records)) == ClosedPnl(ledger))
  }

  /** The state of the risk manager between days of the backtest. */
  ghost predicate Ready(rm: RiskManager, cfg: BacktestConfig, initialCapital: real)
    reads rm
  {
    rm.Valid() && rm.initialCapital == initialCapital && LimitsOf(rm) == cfg.risk &&
    Backtested(rm.trades, rm.initialCapital, rm.maxConsecutiveLosses) &&
    rm.consecutiveLosses == LossStreak(rm.trades)
  }

  /** Appending a day's record and trades keeps the balance. */
  lemma BalanceRecord(records: seq<DayRecord>, faulted: set<int>, before: seq<Trade>,
                      today: seq<Trade>, record: DayRecord)
    requires Balanced(records, faulted, before)
    requires record.trades == |today| && record.pnl == ClosedPnl(today)
    ensures Balanced(records + [record], faulted, before + today)
  {
    var next := records + [record];
    assert next[..|records|] == records;
    assert Pnls(next) == Pnls(records) + [record.pnl];
    SumAppend(Pnls(records), [record.pnl]);
    ClosedPnlJoin(before, today);
  }

  /** A day that raised keeps the records' count within the ledger. */
  lemma BalanceFault(records: seq<DayRecord>, faulted: set<int>, before: seq<Trade>,
                     today: seq<Trade>, current: int)
    requires Balanced(records, faulted, before)
    ensures Balanced(records, faulted + {current}, before + today)
  {
    assert current in faulted + {current};
  }


  // ------------------------------------------------------ the days in order

  /** The closers of every day: the trades of day d close as DayTrade does
      on that day. */
  function DayClosers(hitTarget: int -> bool): int -> (int, Signals.ScoredSignal, int) -> Trade
  {
    d => Closer(d, hitTarget)
  }

  /** A closer for every day that closes its trades as DayTrade does. */
  ghost predicate ClosesDays(closers: int -> (int, Signals.ScoredSignal, int) -> Trade, hitTarget: int -> bool)
  {
    forall d :: Closes(closers(d), d, hitTarget)
  }

  lemma DayClosersClose(hitTarget: int -> bool)
    ensures ClosesDays(DayClosers(hitTarget), hitTarget)
  {
    forall d
      ensures Closes(DayClosers(hitTarget)(d), d, hitTarget)
    {
      CloserCloses(d, hitTarget);
    }
  }

  /** Where the date loop has got to: the daily results so far, the days
      that raised, the ledger and the desk. */
  datatype DaysOutcome = DaysOutcome(records: seq<DayRecord>, faulted: set<int>, ledger: seq<Trade>, last: Desk)

  /** One day of run_backtest on values: a weekend changes nothing; a
      weekday resets the day's trade count, runs its signals, and either
      joins the days that raised or appends the record of its stages, its
      trades and their pnl. The trades taken before a fault stay in the
      ledger. */
  function NextDay(decide: (Signals.ScoredSignal, Desk) -> Decision,
                   closers: int -> (int, Signals.ScoredSignal, int) -> Trade, funnel: int -> Funnel,
                   t: DaysOutcome, day: int): DaysOutcome
  {
    if !IsWeekday(day) then t
    else
      var f := funnel(day);
      var r := DayRun(decide, closers(day), f.signals, t.last.(dailyTrades := 0));
      if r.fault then DaysOutcome(t.records, t.faulted + {day}, t.ledger + r.taken, r.last)
      else
        var record := DayRecord(day, |f.candidates|, |f.live|, |f.signals|, |r.taken|, ClosedPnl(r.taken));
        DaysOutcome(t.records + [record], t.faulted, t.ledger + r.taken, r.last)
  }

  /** The date loop over the days start..upTo-1 from a desk with an empty
      ledger: what run_backtest leaves behind, day by day. */
  function DaysRun(decide: (Signals.ScoredSignal, Desk) -> Decision,
                   closers: int -> (int, Signals.ScoredSignal, int) -> Trade, funnel: int -> Funnel,
                   start: int, upTo: int, first: Desk): DaysOutcome
    decreases upTo - start
  {
    if upTo <= start then DaysOutcome([], {}, [], first)
    else NextDay(decide, closers, funnel, DaysRun(decide, closers, funnel, start, upTo - 1, first), upTo - 1)
  }

  /** The loop one day further on is that day on top of the loop so far. */
  lemma DaysRunStep(decide: (Signals.ScoredSignal, Desk) -> Decision,
                    closers: int -> (int, Signals.ScoredSignal, int) -> Trade, funnel: int -> Funnel,
                    start: int, day: int, first: Desk)
    requires start <= day
    ensures DaysRun(decide, closers, funnel, start, day + 1, first) ==
            NextDay(decide, closers, funnel, DaysRun(decide, closers, funnel, start, day, first), day)
  {
  }

  /** What the date loop leaves is a daily log: every weekday a record or a
      fault, in date order, each record counting its stages, and records
      that balance against the ledger. */
  lemma {:induction false} DaysRunLogged(decide: (Signals.ScoredSignal, Desk) -> Decision,
                                         closers: int -> (int, Signals.ScoredSignal, int) -> Trade,
                                         funnel: int -> Funnel, initialCapital: real, limits: RiskConfig,
                                         hitTarget: int -> bool, start: int, upTo: int, first: Desk)
    requires Follows(decide, initialCapital, limits) && ClosesDays(closers, hitTarget)
    ensures var t := DaysRun(decide, closers, funnel, start, upTo, first);
            DailyLog(t.records, t.faulted, start, upTo, funnel, limits.maxTradesPerDay) &&
            Balanced(t.records, t.faulted, t.ledger)
    decreases upTo - start
  {
    if upTo > start {
      var day := upTo - 1;
      var t := DaysRun(decide, closers, funnel, start, day, first);
      DaysRunLogged(decide, closers, funnel, initialCapital, limits, hitTarget, start, day, first);
      if IsWeekday(day) {
        var f := funnel(day);
        var d := t.last.(dailyTrades := 0);
        var r := DayRun(decide, closers(day), f.signals, d);
        assert Closes(closers(day), day, hitTarget);
        DayRunCounts(decide, closers(day), initialCapital, limits, day, hitTarget, f.signals, d);
        if r.fault {
          LogFault(t.records, t.faulted, start, day, funnel, limits.maxTradesPerDay);
          BalanceFault(t.records, t.faulted, t.ledger, r.taken, day);
        } else {
          var record := DayRecord(day, |f.candidates|, |f.live|, |f.signals|, |r.taken|, ClosedPnl(r.taken));
          assert |r.taken| == 0 ==> r.taken == [];
          LogRecord(t.records, t.faulted, start, day, funnel, limits.maxTradesPerDay, record);
          BalanceRecord(t.records, t.faulted, t.ledger, r.taken, record);
        }
      } else {
        LogWeekend(t.records, t.faulted, start, day, funnel, limits.maxTradesPerDay);
      }
    } else {
      assert Pnls([]) == [];
    }
  }

  /** A day never raises when the initial capital is not negative: the
      guard admits only at a capital of at least 20% of it, and sizing
      raises only at a negative capital. */
  lemma DayRunNoFault(decide: (Signals.ScoredSignal, Desk) -> Decision,
                      close: (int, Signals.ScoredSignal, int) -> Trade, initialCapital: real,
                      limits: RiskConfig, signals: seq<Signals.ScoredSignal>, d: Desk)
    requires Follows(decide, initialCapital, limits) && initialCapital >= 0.0
    ensures !DayRun(decide, close, signals, d).fault
  {
    var r := DayRun(decide, close, signals, d);
    DayRunStops(decide, close, initialCapital, limits, signals, d);
    if r.stoppedAt < |signals| {
      var order := OrderOf(signals[r.stoppedAt]);
      SizingFaultCase(r.last.capital, order.entry, order.stopLoss, limits.riskPerTradePercent);
    }
  }

  /** With a non-negative initial capital no day of the loop raises, so
      every weekday has its record. */
  lemma {:induction false} DaysRunNoFault(decide: (Signals.ScoredSignal, Desk) -> Decision,
                                          closers: int -> (int, Signals.ScoredSignal, int) -> Trade,
                                          funnel: int -> Funnel, initialCapital: real, limits: RiskConfig,
                                          start: int, upTo: int, first: Desk)
    requires Follows(decide, initialCapital, limits) && initialCapital >= 0.0
    ensures DaysRun(decide, closers, funnel, start, upTo, first).faulted == {}
    decreases upTo - start
  {
    if upTo > start {
      var day := upTo - 1;
      var t := DaysRun(decide, closers, funnel, start, day, first);
      DaysRunNoFault(decide, closers, funnel, initialCapital, limits, start, day, first);
      DayRunNoFault(decide, closers(day), initialCapital, limits, funnel(day).signals, t.last.(dailyTrades := 0));
    }
  }

  /** Any rule, closers and funnel that agree with the backtest's own give
      the same loop: the reference run is unique. */
  lemma {:induction false} DaysRunFollows(decide: (Signals.ScoredSignal, Desk) -> Decision,
                                          closers: int -> (int, Signals.ScoredSignal, int) -> Trade,
                                          funnel: int -> Funnel, cfg: BacktestConfig,
                                          market: int -> PreMarket.Market, initialCapital: real,
                                          hitTarget: int -> bool, start: int, upTo: int, first: Desk)
    requires PreMarket.ValidConfig(cfg.screen)
    requires Follows(decide, initialCapital, cfg.risk) && ClosesDays(closers, hitTarget) && Funnels(funnel, cfg, market)
    ensures DaysRun(decide, closers, funnel, start, upTo, first) ==
            DaysRun(Rule(initialCapital, cfg.risk), DayClosers(hitTarget), FunnelOf(cfg, market), start, upTo, first)
    decreases upTo - start
  {
    if upTo > start {
      var day := upTo - 1;
      var t := DaysRun(decide, closers, funnel, start, day, first);
      DaysRunFollows(decide, closers, funnel, cfg, market, initialCapital, hitTarget, start, day, first);
      assert Closes(closers(day), day, hitTarget);
      assert funnel(day) == FunnelOf(cfg, market)(day) == DayFunnel(cfg, market(day), day);
      assert DayClosers(hitTarget)(day) == Closer(day, hitTarget);
      DayRunFollows(decide, closers(day), initialCapital, cfg.risk, day, hitTarget, funnel(day).signals,
                    t.last.(dailyTrades := 0));
    }
  }

  /** One turn of the date loop: a weekend is skipped; a weekday resets
      the day's counters and runs its stages and signals, as NextDay says. */
  method BacktestDay(rm: RiskManager, ghost decide: (Signals.ScoredSignal, Desk) -> Decision,
                     ghost closers: int -> (int, Signals.ScoredSignal, int) -> Trade, ghost funnel: int -> Funnel,
                     cfg: BacktestConfig, market: int -> PreMarket.Market, current: int, hitTarget: int -> bool,
                     records: seq<DayRecord>, ghost faulted: set<int>, ghost before: DaysOutcome)
    returns (next: seq<DayRecord>, ghost nowFaulted: set<int>)
    requires PreMarket.ValidConfig(cfg.screen)
    requires Ready(rm, cfg, rm.initialCapital) && Follows(decide, rm.initialCapital, cfg.risk)
    requires ClosesDays(closers, hitTarget) && Funnels(funnel, cfg, market)
    requires before == DaysOutcome(records, faulted, rm.trades, DeskOf(rm))
    modifies rm
    ensures Ready(rm, cfg, rm.initialCapital)
    ensures NextDay(decide, closers, funnel, before, current) == DaysOutcome(next, nowFaulted, rm.trades, DeskOf(rm))
  {
    next, nowFaulted := records, faulted;
    if !IsWeekday(current) {
      return;
    }
    rm.ResetDailyCounters();
    ghost var close := closers(current);
    assert Closes(close, current, hitTarget);
    var record := RunDay(rm, decide, close, cfg, market(current), current, hitTarget);
    assert funnel(current) == DayFunnel(cfg, market(current), current);
    if record.Some? {
      next := records + [record.value];
    } else {
      nowFaulted := faulted + {current};
    }
  }

  /** The while loop of run_backtest over the days start..end: what it
      leaves is DaysRun from the desk it starts at. */
  method RunDays(rm: RiskManager, cfg: BacktestConfig, start: int, end: int,
                 market: int -> PreMarket.Market, hitTarget: int -> bool)
    returns (records: seq<DayRecord>, ghost faulted: set<int>, ghost decide: (Signals.ScoredSignal, Desk) -> Decision,
             ghost closers: int -> (int, Signals.ScoredSignal, int) -> Trade, ghost funnel: int -> Funnel)
    requires PreMarket.ValidConfig(cfg.screen)
    requires Ready(rm, cfg, rm.initialCapital) && rm.trades == []
    modifies rm
    ensures Ready(rm, cfg, rm.initialCapital)
    ensures Follows(decide, rm.initialCapital, cfg.risk) && ClosesDays(closers, hitTarget) && Funnels(funnel, cfg, market)
    ensures DaysRun(decide, closers, funnel, start, end + 1, old(DeskOf(rm))) ==
            DaysOutcome(records, faulted, rm.trades, DeskOf(rm))
  {
    RuleFollows(rm.initialCapital, cfg.risk);
    decide :| Follows(decide, rm.initialCapital, cfg.risk);
    DayClosersClose(hitTarget);
    closers :| ClosesDays(closers, hitTarget);
    FunnelOfFunnels(cfg, market);
    funnel :| Funnels(funnel, cfg, market);
    ghost var first := DeskOf(rm);
    records, faulted := [], {};
    if end < start {
      return;
    }
    var current := start;
    while current <= end
      invariant Ready(rm, cfg, rm.initialCapital)
      invariant start <= current <= end + 1
      invariant DaysRun(decide, closers, funnel, start, current, first) ==
                DaysOutcome(records, faulted, rm.trades, DeskOf(rm))
      decreases end - current
    {
      DaysRunStep(decide, closers, funnel, start, current, first);
      records, faulted := BacktestDay(rm, decide, closers, funnel, cfg, market, current, hitTarget, records, faulted,
                                      DaysOutcome(records, faulted, rm.trades, DeskOf(rm)));
      current := current + 1;
    }
  }

  /** BacktestEngine.run_backtest over the days start..end (both included),
      with the day's data given by market and the random exit draws by
      hitTarget (by trade id). The daily results, the faulted days and the
      ledger are those of DaysRun from a fresh desk; the metrics carry the
      whole ledger, every trade of which is closed, and the summary of the
      manager that made it. */
  method RunBacktest(cfg: BacktestConfig, start: int, end: int, initialCapital: real,
                     market: int -> PreMarket.Market, hitTarget: int -> bool)
    returns (metrics: Metrics, ledger: seq<Trade>, ghost faulted: set<int>,
             ghost decide: (Signals.ScoredSignal, Desk) -> Decision,
             ghost closers: int -> (int, Signals.ScoredSignal, int) -> Trade, ghost funnel: int -> Funnel)
    requires PreMarket.ValidConfig(cfg.screen)
    ensures Follows(decide, initialCapital, cfg.risk) && ClosesDays(closers, hitTarget) && Funnels(funnel, cfg, market)
    ensures var t := DaysRun(decide, closers, funnel, start, end + 1, Desk(1, initialCapital, 0, 0));
            t.records == metrics.dailyResults && t.faulted == faulted && t.ledger == ledger
    ensures var t := DaysRun(Rule(initialCapital, cfg.risk), DayClosers(hitTarget), FunnelOf(cfg, market),
                             start, end + 1, Desk(1, initialCapital, 0, 0));
            t.records == metrics.dailyResults && t.faulted == faulted && t.ledger == ledger
    ensures DailyLog(metrics.dailyResults, faulted, start, end + 1, funnel, cfg.risk.maxTradesPerDay)
    ensures Balanced(metrics.dailyResults, faulted, ledger)
    ensures initialCapital >= 0.0 ==> faulted == {}
    ensures Backtested(ledger, initialCapital, cfg.risk.maxConsecutiveLosses)
    ensures SequentialIds(ledger) && metrics.trades == ledger
    ensures metrics == CalculateMetrics(metrics.summary, ledger, metrics.dailyResults)
    ensures metrics.summary.NoClosedTrades? <==> ledger == []
    ensures metrics.summary.currentCapital == initialCapital + ClosedPnl(ledger)
    ensures metrics.summary.TradeStats? ==>
              metrics.summary.totalTrades == |ledger| && metrics.summary.totalPnl == ClosedPnl(ledger) &&
              metrics.summary.winningTrades == Wins(ledger) && metrics.summary.losingTrades == Losses(ledger) &&
              metrics.summary.consecutiveLosses == LossStreak(ledger) &&
              metrics.summary.winRate == Rate(Wins(ledger), |ledger|)
  {
    var rm := new RiskManager(initialCapital, cfg.risk);
    var records;
    records, faulted, decide, closers, funnel := RunDays(rm, cfg, start, end, market, hitTarget);
    ledger := rm.trades;
    DaysRunLogged(decide, closers, funnel, initialCapital, cfg.risk, hitTarget, start, end + 1, Desk(1, initialCapital, 0, 0));
    DaysRunFollows(decide, closers, funnel, cfg, market, initialCapital, hitTarget, start, end + 1,
                   Desk(1, initialCapital, 0, 0));
    if initialCapital >= 0.0 {
      DaysRunNoFault(decide, closers, funnel, initialCapital, cfg.risk, start, end + 1, Desk(1, initialCapital, 0, 0));
    }
    WithStatusKeepsAll(ledger, Closed);
    metrics := CalculateMetrics(rm.GetSummary(), rm.ClosedTrades(), records);
  }
}
