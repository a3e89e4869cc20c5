/** Which bricks fill which orders, over whole backtests. */
module BacktestTrades {
  import opened Common
  import opened Execution
  import opened Ledger
  import opened Backtest

  /** The price a brick fills at. */
  function FillPrice(s: Setup, bars: seq<Bar>, f: Filling): real
    requires f.filled < |bars|
  {
    Adjust(s.executor.slippage, bars[f.filled].close, f.side)
  }

  /** Effective fills alternate, starting with a buy; an unforced one fills on the very next brick. */
  ghost predicate Alternating(j: seq<Filling>, n: nat) {
    forall k | 0 <= k < |j| ::
      && j[k].side == (if k % 2 == 0 then Buy else Sell)
      && j[k].filled < n
      && (!j[k].forced ==> j[k].filled == j[k].signalled + 1)
  }

  /** Each brick fills at most one order, in order of time. */
  ghost predicate Rising(j: seq<Filling>) {
    forall k | 0 < k < |j| :: j[k - 1].filled < j[k].filled
  }

  /** The trade list is the fills in pairs. */
  ghost predicate Paired(s: Setup, bars: seq<Bar>, j: seq<Filling>, trades: seq<Trade>)
    requires Alternating(j, |bars|)
  {
    && |trades| == |j| / 2
    && forall t | 0 <= t < |trades| ::
         && trades[t].barsHeld == j[2 * t + 1].filled - j[2 * t].filled
         && trades[t].entryPrice == FillPrice(s, bars, j[2 * t])
         && trades[t].exitPrice == FillPrice(s, bars, j[2 * t + 1])
  }

  /** The account as the journal tells it. */
  ghost predicate Journaled(s: Setup, p: Progress, bars: seq<Bar>) {
    && Ready(p)
    && Alternating(p.journal, |bars|) && Rising(p.journal)
    && (forall k | 0 <= k < |p.journal| :: !p.journal[k].forced)
    && Paired(s, bars, p.journal, p.account.trades)
    && Holding(s, p, bars)
    && (p.pending.Some? ==>
          && bars != [] && p.pending.value.signalled == |bars| - 1
          && (p.pending.value.order.side.Sell? <==> p.account.position.IsOpen()))
  }

  /** A position is held exactly while the last fill is a buy, opened by that fill. */
  ghost predicate Holding(s: Setup, p: Progress, bars: seq<Bar>)
    requires Alternating(p.journal, |bars|)
  {
    && (p.account.position.IsOpen() <==> |p.journal| % 2 == 1)
    && (p.account.position.IsOpen() ==>
          var entered := p.journal[|p.journal| - 1];
          && p.account.position.entryBar == Some(entered.filled)
          && p.account.position.average == FillPrice(s, bars, entered))
  }

  /** What executing an order does: nothing to the position, or open it, or close it. */
  lemma ExecutedEffect(s: Setup, p: Progress, order: Order, bar: Bar, index: nat, signalled: nat, forced: bool)
    requires order.fill.None? && order.quantity > 0.0
    requires order.side.Sell? <==> p.account.position.IsOpen()
    ensures var r := Executed(s, p, order, bar, index, signalled, forced);
            var price := Adjust(s.executor.slippage, bar.close, order.side);
            if r.journal == p.journal then
              r.account.position == p.account.position && r.account.trades == p.account.trades
            else
              && r.journal == p.journal + [Filling(order.side, signalled, index, forced)]
              && r.account.position.IsOpen() == order.side.Buy?
              && (order.side.Buy? ==> r.account.trades == p.account.trades
                                      && r.account.position.entryBar == Some(index)
                                      && r.account.position.average == price)
              && (order.side.Sell? ==>
                    && r.account.trades == p.account.trades + [r.account.trades[|p.account.trades|]]
                    && var t := r.account.trades[|p.account.trades|];
                       && t.entryPrice == p.account.position.average && t.exitPrice == price
                       && t.barsHeld == index - p.account.position.entryBar.GetOr(index))
    ensures order.side.Sell? && bar.close > 0.0 ==>
              Executed(s, p, order, bar, index, signalled, forced).journal != p.journal
  {
    hide Adjust, Cost, Gross, Ratio, Worth, Fill.Slippage, Fill.Notional;
  }

  /** The journal, the trades and the holding survive one more fill. */
  lemma ExecutedKeepsJournaled(s: Setup, p: Progress, order: Order, bars: seq<Bar>, n: nat, signalled: nat, forced: bool)
    requires n < |bars| && Journaled(s, p, bars[..n]) && p.pending.None?
    requires order.fill.None? && order.quantity > 0.0 && (order.side.Sell? <==> p.account.position.IsOpen())
    requires !forced && n == signalled + 1
    ensures Journaled(s, Executed(s, p, order, bars[n], n, signalled, forced), bars[..n + 1])
  {
    hide Adjust, Executed;
    var r := Executed(s, p, order, bars[n], n, signalled, forced);
    ExecutedEffect(s, p, order, bars[n], n, signalled, forced);
    ExecutedFrame(s, p, order, bars[n], n, signalled, forced);
    JournaledLater(s, p, bars, n);
    if r.journal != p.journal {
      var added := Filling(order.side, signalled, n, forced);
      assert FillPrice(s, bars[..n + 1], added) == Adjust(s.executor.slippage, bars[n].close, order.side);
      PairedNext(s, bars[..n + 1], p, r, added);
    }
  }

  lemma ExecutedFrame(s: Setup, p: Progress, order: Order, bar: Bar, index: nat, signalled: nat, forced: bool)
    requires order.fill.None? && order.quantity > 0.0
    ensures Executed(s, p, order, bar, index, signalled, forced).pending == p.pending
  {
  }

  lemma JournaledLater(s: Setup, p: Progress, bars: seq<Bar>, n: nat)
    requires n < |bars| && Journaled(s, p, bars[..n]) && p.pending.None?
    ensures Journaled(s, p, bars[..n + 1])
  {
    hide Adjust;
    assert forall k | 0 <= k < n :: bars[..n][k] == bars[..n + 1][k];
  }

  lemma PairedNext(s: Setup, bars: seq<Bar>, p: Progress, r: Progress, f: Filling)
    requires Journaled(s, p, bars) && p.pending.None? && f.filled < |bars|
    requires r.journal == p.journal + [f] && r.pending.None?
    requires f.side == (if |p.journal| % 2 == 0 then Buy else Sell)
    requires !f.forced ==> f.filled == f.signalled + 1
    requires f.side.Buy? ==> r.account.trades == p.account.trades
    requires f.side.Sell? ==>
               && |r.account.trades| == |p.account.trades| + 1
               && r.account.trades[..|p.account.trades|] == p.account.trades
               && var t := r.account.trades[|p.account.trades|];
                  && t.entryPrice == p.account.position.average && t.exitPrice == FillPrice(s, bars, f)
                  && t.barsHeld == f.filled - p.account.position.entryBar.GetOr(f.filled)
    ensures Alternating(r.journal, |bars|)
    ensures Paired(s, bars, r.journal, r.account.trades)
  {
    hide Adjust;
    var j := p.journal;
    if f.side.Sell? {
      var t := |p.account.trades|;
      assert r.journal[2 * t] == j[|j| - 1] && r.journal[2 * t + 1] == f;
    }
    forall t | 0 <= t < |p.account.trades|
      ensures r.journal[2 * t] == j[2 * t] && r.journal[2 * t + 1] == j[2 * t + 1]
      ensures r.account.trades[t] == p.account.trades[t]
    {
    }
  }

  lemma StepKeepsJournaled(s: Setup, p: Progress, bars: seq<Bar>, n: nat, signal: Signal)
    requires n < |bars| && Journaled(s, p, bars[..n])
    ensures Journaled(s, Step(s, p, bars[n], n, signal), bars[..n + 1])
  {
    hide Adjust, Executed, SizeFor, Worth;
    var filled := FillPending(s, p, bars[n], n);
    if p.pending.Some? {
      var clear := p.(pending := None);
      var w := p.pending.value;
      JournaledWithoutPending(s, p, bars[..n]);
      ExecutedKeepsJournaled(s, clear, w.order, bars, n, w.signalled, false);
      ExecutedIgnores(s, p, w.order, bars[n], n, w.signalled);
    } else {
      JournaledLater(s, p, bars, n);
    }
    var marked := filled.(account := Mark(filled.account, bars[n].timestamp, bars[n].close));
    assert Journaled(s, marked, bars[..n + 1]);
    OrderFromSignalKeepsJournaled(s, marked, signal, bars, n);
  }

  lemma JournaledWithoutPending(s: Setup, p: Progress, bars: seq<Bar>)
    requires Journaled(s, p, bars)
    ensures Journaled(s, p.(pending := None), bars)
  {
    hide Adjust;
  }

  lemma ExecutedIgnores(s: Setup, p: Progress, order: Order, bar: Bar, index: nat, signalled: nat)
    requires order.fill.None? && order.quantity > 0.0
    ensures Executed(s, p.(pending := None), order, bar, index, signalled, false)
            == Executed(s, p, order, bar, index, signalled, false).(pending := None)
  {
  }

  lemma OrderFromSignalKeepsJournaled(s: Setup, p: Progress, signal: Signal, bars: seq<Bar>, n: nat)
    requires n < |bars| && Journaled(s, p, bars[..n + 1]) && p.pending.None?
    ensures Journaled(s, OrderFromSignal(s, p, signal, bars[n], n), bars[..n + 1])
  {
    hide Adjust, SizeFor, Worth;
  }

  lemma {:induction false} BarsAreJournaled(s: Setup, starting: real, leverage: real, bars: seq<Bar>, signals: seq<Signal>)
    requires |signals| == |bars|
    ensures Journaled(s, Bars(s, Begin(starting, leverage), bars, signals), bars)
  {
    hide Journaled, Step;
    if bars != [] {
      var n := |bars| - 1;
      BarsAreJournaled(s, starting, leverage, bars[..n], signals[..n]);
      StepKeepsJournaled(s, Bars(s, Begin(starting, leverage), bars[..n], signals[..n]), bars, n, signals[n]);
      assert bars[..n + 1] == bars;
    } else {
      BeginIsJournaled(s, starting, leverage);
    }
  }

  lemma BeginIsJournaled(s: Setup, starting: real, leverage: real)
    ensures Journaled(s, Begin(starting, leverage), [])
  {
    hide Adjust;
  }

  /** For every run: effective fills alternate buy and sell; every unforced fill comes on the brick
      after its signal and at that brick's price; the trades are the fills in pairs, held for the
      bricks between them; each trade ends no earlier than it begins, and the next one begins on a
      later brick than it ends. */
  lemma {:induction false} TradesAreOrdered(s: Setup, starting: real, leverage: real, bars: seq<Bar>, signals: seq<Signal>)
    requires |signals| == |bars|
    ensures var r := Outcome(s, starting, leverage, bars, signals);
            && Alternating(r.journal, |bars|) && Paired(s, bars, r.journal, r.account.trades)
            && (forall k | 0 < k < |r.journal| :: r.journal[k - 1].filled <= r.journal[k].filled)
            && (forall k | 0 < k < |r.journal| && !r.journal[k].forced :: r.journal[k - 1].filled < r.journal[k].filled)
            && (forall k | 0 <= k < |r.journal| && r.journal[k].forced :: k == |r.journal| - 1 && k % 2 == 1)
  {
    hide Adjust, Bars, ForceClose, Journaled, CancelPending;
    BarsAreJournaled(s, starting, leverage, bars, signals);
    JournaledCancelled(s, Bars(s, Begin(starting, leverage), bars, signals), bars);
    ForceCloseIsOrdered(s, CancelPending(Bars(s, Begin(starting, leverage), bars, signals)), bars);
  }

  lemma {:induction false} ForceCloseIsOrdered(s: Setup, p: Progress, bars: seq<Bar>)
    requires Journaled(s, p, bars) && p.pending.None?
    ensures var r := ForceClose(s, p, bars);
            && Alternating(r.journal, |bars|) && Paired(s, bars, r.journal, r.account.trades)
            && (forall k | 0 < k < |r.journal| :: r.journal[k - 1].filled <= r.journal[k].filled)
            && (forall k | 0 < k < |r.journal| && !r.journal[k].forced :: r.journal[k - 1].filled < r.journal[k].filled)
            && (forall k | 0 <= k < |r.journal| && r.journal[k].forced :: k == |r.journal| - 1 && k % 2 == 1)
  {
    hide Adjust, Executed;
    if s.forceClose && bars != [] && p.account.position.IsOpen() {
      var n := |bars| - 1;
      var order := NewOrder(p.nextId + 1, Sell, Exit, p.account.position.quantity, bars[n].close, bars[n].timestamp);
      var recorded := p.(account := RecordOrder(p.account, order), nextId := p.nextId + 1);
      assert Journaled(s, recorded, bars);
      var closed := Executed(s, recorded, order, bars[n], n, n, true);
      ExecutedEffect(s, recorded, order, bars[n], n, n, true);
      ExecutedFrame(s, recorded, order, bars[n], n, n, true);
      if closed.journal != recorded.journal {
        PairedNext(s, bars, recorded, closed, Filling(Sell, n, n, true));
      }
    }
  }

  lemma JournaledCancelled(s: Setup, p: Progress, bars: seq<Bar>)
    requires Journaled(s, p, bars)
    ensures Journaled(s, CancelPending(p), bars) && CancelPending(p).pending.None?
  {
    hide Adjust;
  }
}
