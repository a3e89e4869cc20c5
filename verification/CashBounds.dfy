/** How far into debt a backtest and a paper venue can get. */
module CashBounds {
  import opened Common
  import opened Execution
  import opened Ledger
  import opened Backtest
  import P = PaperVenue

  // ---- backtests ---------------------------------------------------------------------------------

  /** What closing the trades took out of the account beyond what it brought in. */
  function SumShortfalls(ts: seq<Trade>): real {
    if ts == [] then 0.0
    else SumShortfalls(ts[..|ts| - 1]) + Max(0.0, ts[|ts| - 1].exitCost - ts[|ts| - 1].exitPrice * ts[|ts| - 1].quantity)
  }

  lemma ShortfallsOfAppend(ts: seq<Trade>, t: Trade)
    ensures SumShortfalls(ts + [t]) == SumShortfalls(ts) + Max(0.0, t.exitCost - t.exitPrice * t.quantity)
  {
    assert (ts + [t])[..|ts|] == ts;
  }

  lemma {:induction false} ShortfallsAreNotNegative(ts: seq<Trade>)
    ensures SumShortfalls(ts) >= 0.0
    ensures (forall i | 0 <= i < |ts| :: ts[i].exitCost <= ts[i].exitPrice * ts[i].quantity) ==> SumShortfalls(ts) == 0.0
  {
    if ts != [] {
      ShortfallsAreNotNegative(ts[..|ts| - 1]);
    }
  }

  /** Cash is never below the start or a debt of a billionth by more than the trades' shortfalls. */
  predicate Covered(a: Account) {
    a.cash >= Min(a.starting, -0.000000001) - SumShortfalls(a.trades)
  }

  lemma ApplyKeepsCovered(a: Account, order: Order, bar: int)
    requires Covered(a)
    requires order.side.Sell? && order.fill.Some? ==> a.position.IsOpen() && order.fill.value.quantity == a.position.quantity
    ensures Covered(ApplyOrder(a, order, bar).account)
  {
    hide ApplyOrder, SumShortfalls;
    CashFloor(a, order, bar);
    ShortfallsAreNotNegative(a.trades);
    TradesAfter(a, order, bar);
    if order.side.Sell? && order.fill.Some? {
      var f := order.fill.value;
      CloseRealizes(a.position, f.price, f.cost, f.timestamp, bar);
      ShortfallsOfAppend(a.trades, Close(a.position, f.price, f.cost, f.timestamp, bar).1.value);
    }
  }

  lemma TradesAfter(a: Account, order: Order, bar: int)
    requires order.side.Sell? && order.fill.Some? ==> a.position.IsOpen()
    ensures var r := ApplyOrder(a, order, bar).account;
            && r.starting == a.starting
            && r.trades == if order.side.Sell? && order.fill.Some?
                           then a.trades + [Close(a.position, order.fill.value.price, order.fill.value.cost,
                                                  order.fill.value.timestamp, bar).1.value]
                           else a.trades
  {
    hide TradeOf, OpenLong, Fill.Notional, Fill.Slippage;
  }

  lemma ExecutedKeepsCovered(s: Setup, p: Progress, order: Order, bar: Bar, index: nat, signalled: nat, forced: bool)
    requires order.fill.None? && order.quantity > 0.0 && Covered(p.account)
    requires order.side.Sell? ==> p.account.position.IsOpen() && order.quantity == p.account.position.quantity
    ensures Covered(Executed(s, p, order, bar, index, signalled, forced).account)
  {
    hide ApplyOrder, Covered, Execute;
    ExecuteQuantity(s.executor, order, bar.close, bar.timestamp);
    ApplyKeepsCovered(p.account, Execute(s.executor, order, bar.close, bar.timestamp), index);
  }

  lemma StepKeepsCovered(s: Setup, p: Progress, bar: Bar, index: nat, signal: Signal)
    requires Backtest.Sound(p) && Covered(p.account)
    ensures Covered(Backtest.Step(s, p, bar, index, signal).account)
  {
    hide Executed, Balanced, SizeFor, Worth, SumShortfalls;
    if p.pending.Some? {
      ExecutedKeepsCovered(s, p, p.pending.value.order, bar, index, p.pending.value.signalled, false);
    }
  }

  /** At every brick of every run: with any cost model and any prices. */
  lemma {:induction false} BarsStayCovered(s: Setup, starting: real, leverage: real, bars: seq<Bar>, signals: seq<Signal>)
    requires |signals| == |bars|
    ensures Covered(Bars(s, Begin(starting, leverage), bars, signals).account)
  {
    hide Backtest.Step, Backtest.Sound, SumShortfalls;
    if bars != [] {
      var n := |bars| - 1;
      BarsStayCovered(s, starting, leverage, bars[..n], signals[..n]);
      BeginIsSound(starting, leverage);
      BarsAreSound(s, Begin(starting, leverage), bars[..n], signals[..n]);
      StepKeepsCovered(s, Bars(s, Begin(starting, leverage), bars[..n], signals[..n]), bars[n], n, signals[n]);
    } else {
      ShortfallsAreNotNegative([]);
    }
  }

  /** Hence a backtest in which no exit cost more than it brought never owes more than a billionth, if it
      did not start in debt. */
  lemma {:induction false} BacktestsStayOutOfDebt(s: Setup, starting: real, leverage: real, bars: seq<Bar>, signals: seq<Signal>)
    requires |signals| == |bars| && starting >= 0.0
    ensures var a := Bars(s, Begin(starting, leverage), bars, signals).account;
            (forall i | 0 <= i < |a.trades| :: a.trades[i].exitCost <= a.trades[i].exitPrice * a.trades[i].quantity)
            ==> a.cash >= -0.000000001
  {
    hide Bars, SumShortfalls;
    BarsStayCovered(s, starting, leverage, bars, signals);
    TermsAreKept(s, starting, leverage, bars, signals);
    ShortfallsAreNotNegative(Bars(s, Begin(starting, leverage), bars, signals).account.trades);
  }

  const HOLDING := PositionState(true, 1.0, 1.0, 0.0, 0.0, Some(0), Some(0))
  const CHEAP_EXIT := Order(1, Sell, Exit, 1.0, 1.0, 0, Filled, Some(Fill(1.0, 1.0, 5.0, 1.0, Sell, 0, None)), 0.0, None)

  /** An exit can: what is held sells for 1 at a commission of 5, and a penniless account owes 4. */
  lemma ExitCanOverdraw(bar: int)
    ensures ApplyOrder(NewAccount(0.0, 1.0).(position := HOLDING), CHEAP_EXIT, bar).account.cash == -4.0
  {
    hide ApplyOrder;
    SellIsCredited(NewAccount(0.0, 1.0).(position := HOLDING), CHEAP_EXIT, bar);
  }

  // ---- the paper venue ----------------------------------------------------------------------------

  /** What the reported fills drained. */
  function SumDrains(es: seq<P.Event>): real {
    if es == [] then 0.0 else SumDrains(es[..|es| - 1]) + Drain(es[|es| - 1].order)
  }

  lemma {:induction false} DrainsOfAppend(es: seq<P.Event>, fs: seq<P.Event>)
    ensures SumDrains(es + fs) == SumDrains(es) + SumDrains(fs)
  {
    hide Drain;
    if fs == [] {
      assert es + fs == es;
    } else {
      assert (es + fs)[..|es + fs| - 1] == es + fs[..|fs| - 1];
      DrainsOfAppend(es, fs[..|fs| - 1]);
    }
  }

  lemma DrainsOfOne(e: P.Event)
    ensures SumDrains([e]) == Drain(e.order)
  {
    assert [e][..0] == [] && SumDrains([e][..0]) == 0.0;
  }

  lemma {:induction false} DrainsAreNotNegative(es: seq<P.Event>)
    ensures SumDrains(es) >= 0.0
  {
    if es != [] {
      DrainsAreNotNegative(es[..|es| - 1]);
    }
  }

  /** Settling a ticket moves the cash as its reported order says. */
  lemma SettleMovesCash(x: Executor, a: Account, bar: int, t: P.OrderTicket, price: real, at: int)
    ensures var (after, event) := P.Settle(x, a, bar, t, price, at);
            after.cash >= Min(a.cash, -0.000000001) - Drain(event.order)
  {
    hide ApplyOrder, Execute, P.IsTicket;
    var done := Execute(x, t.order, price, at);
    CashFloor(a, done, bar);
    OrderAfter(a, done, bar);
  }

  lemma OrderAfter(a: Account, order: Order, bar: int)
    ensures order.side.Sell? ==> ApplyOrder(a, order, bar).order == order
    ensures order.side.Buy? ==> Drain(ApplyOrder(a, order, bar).order) == Drain(order) == 0.0
  {
    hide TradeOf, OpenLong, Fill.Notional, Fill.Slippage;
  }

  lemma {:induction false} SettlingDrains(x: Executor, a: Account, bar: int, ts: seq<P.OrderTicket>, q: P.Quote, floor: real)
    requires P.AllFillable(ts, q) && a.cash >= floor && floor <= -0.000000001
    ensures P.SettleAll(x, a, bar, ts, q).cash >= floor - SumDrains(P.SettleEvents(x, a, bar, ts, q))
  {
    hide P.Settle, P.Price, P.Fillable, P.IsTicket, Drain, SumDrains;
    if ts == [] {
      DrainsAreNotNegative(P.SettleEvents(x, a, bar, ts, q));
    } else {
      var prefix, t := ts[..|ts| - 1], ts[|ts| - 1];
      var price := P.Price(t, q);
      SettlingDrains(x, a, bar, prefix, q, floor);
      var before, events := P.SettleAll(x, a, bar, prefix, q), P.SettleEvents(x, a, bar, prefix, q);
      var notice := if t.kind.Market? then [] else [P.Event(P.TriggeredEvent, t.order, Some(price))];
      var event := P.Settle(x, before, bar, t, price, q.timestamp).1;
      SettleMovesCash(x, before, bar, t, price, q.timestamp);
      DrainsOfAppend(events, notice);
      DrainsOfAppend(events + notice, [event]);
      DrainsOfOne(event);
      DrainsAreNotNegative(notice);
      DrainsAreNotNegative(events);
    }
  }

  lemma {:induction false} FreeingMovesNoCash(a: Account, ts: seq<P.OrderTicket>)
    ensures P.FreeAll(a, ts).cash == a.cash
  {
    if ts != [] {
      FreeingMovesNoCash(a, ts[..|ts| - 1]);
    }
  }

  lemma QuoteDrains(x: Executor, v: P.Venue, q: P.Quote, floor: real)
    requires P.QueueIsMarket(v) && v.account.cash >= floor && floor <= -0.000000001
    ensures var (after, events) := P.OnQuote(x, v, q); after.account.cash >= floor - SumDrains(events)
  {
    hide P.SettleAll, P.SettleEvents, P.FreeAll, P.CancelEvents, P.Select, P.AllFillable, SumDrains;
    var matched := P.Matched(v, q);
    var expired := P.Select(P.Unmatched(v, q), P.Immediate, true);
    SettlingDrains(x, v.account, v.sequence + 1, matched, q, floor);
    FreeingMovesNoCash(P.SettleAll(x, v.account, v.sequence + 1, matched, q), expired);
    DrainsOfAppend(P.SettleEvents(x, v.account, v.sequence + 1, matched, q), P.CancelEvents(expired));
    DrainsAreNotNegative(P.CancelEvents(expired));
  }

  lemma StepDrains(x: Executor, v: P.Venue, op: P.Op, floor: real)
    requires P.QueueIsMarket(v) && v.account.cash >= floor && floor <= -0.000000001
    ensures var (after, events) := P.Step(x, v, op); after.account.cash >= floor - SumDrains(events)
  {
    hide P.OnQuote, SumDrains, P.Select, P.Find, P.IsTicket, Worth;
    DrainsAreNotNegative(P.Step(x, v, op).1);
    if op.Tick? {
      QuoteDrains(x, v, op.q, floor);
    }
  }

  /** Whatever is submitted, cancelled and quoted, the paper account's cash is never below what it began
      with, or a debt of a billionth, by more than its reported sells cost beyond what they brought. */
  lemma {:induction false} PaperStaysCovered(x: Executor, a: Account, ops: seq<P.Op>)
    ensures var (v, events) := P.Run(x, P.OpenVenue(a), ops);
            v.account.cash >= Min(a.cash, -0.000000001) - SumDrains(events)
  {
    hide P.Step, SumDrains;
    if ops == [] {
      DrainsAreNotNegative(P.Run(x, P.OpenVenue(a), ops).1);
    } else {
      var n := |ops| - 1;
      PaperStaysCovered(x, a, ops[..n]);
      var (v, events) := P.Run(x, P.OpenVenue(a), ops[..n]);
      DrainsAreNotNegative(events);
      StepDrains(x, v, ops[n], Min(a.cash, -0.000000001) - SumDrains(events));
      DrainsOfAppend(events, P.Step(x, v, ops[n]).1);
    }
  }
}
