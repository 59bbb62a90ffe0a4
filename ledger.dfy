/** The trade ledger both risk managers keep: trade records, how a trade is
    closed and what it earns, and the counts and sums over a ledger that the
    managers' counters must agree with. */
module Ledger {
  import opened Common

  datatype Side = Buy | Sell

  datatype Status = Open | Closed

  /** What a trade is opened from: the signal's side, entry, stop and target. */
  datatype Order = Order(side: Side, entry: real, stopLoss: real, target: real)

  /** A ledger record. pnlPercent is None where the percentage divides by a
      zero position (entry * quantity == 0) and is not a number. */
  datatype Trade = Trade(id: int, symbol: string, order: Order, quantity: int, entryTime: int,
                         status: Status, exitPrice: Option<real>, exitTime: Option<int>,
                         pnl: real, pnlPercent: Option<real>)

  /** Profit of a closed position: exit minus entry per share for a BUY,
      entry minus exit for a SELL, times the quantity. */
  function TradePnl(side: Side, entry: real, exit: real, quantity: int): (pnl: real)
    ensures quantity > 0 ==>
              (pnl > 0.0 <==> (side == Buy && exit > entry) || (side == Sell && exit < entry))
    ensures pnl == 0.0 <==> quantity == 0 || exit == entry
  {
    var perShare := if side == Buy then exit - entry else entry - exit;
    var q := quantity as real;
    SignOfProduct(perShare, q);
    assert perShare > 0.0 <==> (side == Buy && exit > entry) || (side == Sell && exit < entry);
    perShare * q
  }

  lemma SignOfProduct(a: real, b: real)
    ensures b > 0.0 ==> (a * b > 0.0 <==> a > 0.0)
    ensures a * b == 0.0 <==> a == 0.0 || b == 0.0
  {
    if b > 0.0 && a <= 0.0 {
      assert a * b <= 0.0 * b;
    }
  }

  function PnlPercent(pnl: real, entry: real, quantity: int): (pct: Option<real>)
    ensures pct.None? <==> entry * quantity as real == 0.0
    ensures pct.Some? ==> pct.value * (entry * quantity as real) == pnl * 100.0
  {
    var invested := entry * quantity as real;
    if invested == 0.0 then None else Some(pnl / invested * 100.0)
  }

  /** A freshly opened trade. */
  function OpenTrade(id: int, symbol: string, order: Order, quantity: int, time: int): (t: Trade)
    ensures t.status == Open && t.id == id && t.pnl == 0.0
    ensures Settled(t)
  {
    Trade(id, symbol, order, quantity, time, Open, None, None, 0.0, Some(0.0))
  }

  /** The trade t once closed at exitPrice. */
  function CloseOut(t: Trade, exitPrice: real, time: int): (c: Trade)
    ensures c.status == Closed && c.exitPrice == Some(exitPrice) && c.exitTime == Some(time)
    ensures c.pnl == TradePnl(t.order.side, t.order.entry, exitPrice, t.quantity)
    ensures c.(status := t.status, exitPrice := t.exitPrice, exitTime := t.exitTime,
               pnl := t.pnl, pnlPercent := t.pnlPercent) == t
  {
    var pnl := TradePnl(t.order.side, t.order.entry, exitPrice, t.quantity);
    t.(status := Closed, exitPrice := Some(exitPrice), exitTime := Some(time),
       pnl := pnl, pnlPercent := PnlPercent(pnl, t.order.entry, t.quantity))
  }

  /** Open trades carry no exit and no pnl; closed ones carry the pnl their
      exit implies. */
  predicate Settled(t: Trade)
  {
    match t.status
    case Open => t.exitPrice.None? && t.exitTime.None? && t.pnl == 0.0 && t.pnlPercent == Some(0.0)
    case Closed =>
      t.exitPrice.Some? && t.exitTime.Some? &&
      t.pnl == TradePnl(t.order.side, t.order.entry, t.exitPrice.value, t.quantity) &&
      t.pnlPercent == PnlPercent(t.pnl, t.order.entry, t.quantity)
  }

  lemma CloseOutSettled(t: Trade, exitPrice: real, time: int)
    ensures Settled(CloseOut(t, exitPrice, time))
  {
  }

  /** Every record of the ledger is settled. */
  ghost predicate AllSettled(ts: seq<Trade>)
  {
    forall i :: 0 <= i < |ts| ==> Settled(ts[i])
  }

  /** Ids are 1, 2, 3, ... in ledger order. */
  ghost predicate SequentialIds(ts: seq<Trade>)
  {
    forall i :: 0 <= i < |ts| ==> ts[i].id == i + 1
  }

  /** Replacing a record by one with the same id keeps the ids sequential;
      every record stays settled if the new one is. */
  lemma ReplaceKeepsLedger(ts: seq<Trade>, k: nat, c: Trade)
    requires k < |ts| && SequentialIds(ts) && c.id == ts[k].id
    requires AllSettled(ts) && Settled(c)
    ensures SequentialIds(ts[k := c])
    ensures AllSettled(ts[k := c])
  {
  }

  /** Appending a settled record with the next id keeps the ledger well formed. */
  lemma AppendKeepsLedger(ts: seq<Trade>, t: Trade)
    requires SequentialIds(ts) && AllSettled(ts)
    requires t.id == |ts| + 1 && Settled(t)
    ensures SequentialIds(ts + [t])
    ensures AllSettled(ts + [t])
  {
  }

  /** Running the trade list comprehension filtering on status: the trades
      with that status, in ledger order, each as often as in the ledger. */
  function WithStatus(ts: seq<Trade>, s: Status): (r: seq<Trade>)
    ensures |r| <= |ts|
    ensures forall t :: t in r <==> t in ts && t.status == s
    ensures IsSubsequence(r, ts)
  {
    if ts == [] then []
    else
      var init, last := ts[..|ts| - 1], ts[|ts| - 1];
      var prefix := WithStatus(init, s);
      assert ts == init + [last];
      if last.status == s then
        SubsequenceKeepLast(prefix, init, last);
        prefix + [last]
      else
        SubsequenceSkipLast(prefix, init, last);
        prefix
  }

  /** The comprehension keeps each trade with the status as often as the
      ledger holds it, and no other trade. */
  lemma {:induction false} WithStatusMultiplicity(ts: seq<Trade>, s: Status)
    ensures forall t :: multiset(WithStatus(ts, s))[t] == if t.status == s then multiset(ts)[t] else 0
    decreases |ts|
  {
    if ts != [] {
      var init, last := ts[..|ts| - 1], ts[|ts| - 1];
      WithStatusMultiplicity(init, s);
      assert ts == init + [last];
    }
  }

  /** When every trade has the status, the comprehension keeps the whole
      ledger. */
  lemma {:induction false} WithStatusKeepsAll(ts: seq<Trade>, s: Status)
    requires forall i :: 0 <= i < |ts| ==> ts[i].status == s
    ensures WithStatus(ts, s) == ts
    decreases |ts|
  {
    if ts != [] {
      WithStatusKeepsAll(ts[..|ts| - 1], s);
      assert ts == ts[..|ts| - 1] + [ts[|ts| - 1]];
    }
  }

  /** Number of closed trades with positive pnl. */
  function Wins(ts: seq<Trade>): nat
  {
    if ts == [] then 0
    else Wins(ts[..|ts| - 1]) + (if ts[|ts| - 1].status == Closed && ts[|ts| - 1].pnl > 0.0 then 1 else 0)
  }

  /** Number of closed trades with pnl <= 0: a break-even trade is a loss. */
  function Losses(ts: seq<Trade>): nat
  {
    if ts == [] then 0
    else Losses(ts[..|ts| - 1]) + (if ts[|ts| - 1].status == Closed && ts[|ts| - 1].pnl <= 0.0 then 1 else 0)
  }

  /** Sum of the pnl of the closed trades. */
  function ClosedPnl(ts: seq<Trade>): real
  {
    if ts == [] then 0.0
    else ClosedPnl(ts[..|ts| - 1]) + (if ts[|ts| - 1].status == Closed then ts[|ts| - 1].pnl else 0.0)
  }

  /** Appending a closed trade adds its pnl. */
  lemma ClosedPnlSnoc(ts: seq<Trade>, t: Trade)
    requires t.status == Closed
    ensures ClosedPnl(ts + [t]) == ClosedPnl(ts) + t.pnl
  {
    assert (ts + [t])[..|ts|] == ts;
  }

  /** The realised pnl of two ledgers one after the other is the sum of theirs. */
  lemma {:induction false} ClosedPnlJoin(a: seq<Trade>, b: seq<Trade>)
    ensures ClosedPnl(a + b) == ClosedPnl(a) + ClosedPnl(b)
    decreases |b|
  {
    if b != [] {
      assert (a + b)[..|a + b| - 1] == a + b[..|b| - 1];
      ClosedPnlJoin(a, b[..|b| - 1]);
    } else {
      assert a + b == a;
    }
  }

  /** Every closed trade is either a win or a loss. */
  lemma {:induction false} WinsAndLossesPartitionClosed(ts: seq<Trade>)
    ensures Wins(ts) + Losses(ts) == |WithStatus(ts, Closed)|
    decreases |ts|
  {
    if ts != [] {
      WinsAndLossesPartitionClosed(ts[..|ts| - 1]);
    }
  }

  /** Appending an open trade changes no count and no sum over closed trades. */
  lemma AppendOpen(ts: seq<Trade>, t: Trade)
    requires t.status == Open
    ensures Wins(ts + [t]) == Wins(ts) && Losses(ts + [t]) == Losses(ts)
    ensures ClosedPnl(ts + [t]) == ClosedPnl(ts)
  {
    assert (ts + [t])[..|ts|] == ts;
  }

  /** Appending an open trade extends the open trades by it and leaves the
      closed ones as they were. */
  lemma AppendOpenStatus(ts: seq<Trade>, t: Trade)
    requires t.status == Open
    ensures WithStatus(ts + [t], Closed) == WithStatus(ts, Closed)
    ensures WithStatus(ts + [t], Open) == WithStatus(ts, Open) + [t]
  {
    assert (ts + [t])[..|ts|] == ts;
  }

  /** Closing the open trade at position k adds exactly that trade's outcome
      to the counts and its pnl to the closed sum. */
  lemma {:induction false} CloseAt(ts: seq<Trade>, k: nat, c: Trade)
    requires k < |ts| && ts[k].status == Open && c.status == Closed
    ensures Wins(ts[k := c]) == Wins(ts) + (if c.pnl > 0.0 then 1 else 0)
    ensures Losses(ts[k := c]) == Losses(ts) + (if c.pnl <= 0.0 then 1 else 0)
    ensures ClosedPnl(ts[k := c]) == ClosedPnl(ts) + c.pnl
    ensures |WithStatus(ts[k := c], Closed)| == |WithStatus(ts, Closed)| + 1
    decreases |ts|
  {
    var n := |ts|;
    var us := ts[k := c];
    if k == n - 1 {
      assert us[..n - 1] == ts[..n - 1];
    } else {
      assert us[..n - 1] == ts[..n - 1][k := c];
      CloseAt(ts[..n - 1], k, c);
    }
  }
}
