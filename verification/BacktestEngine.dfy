/** The backtest engine object. */
module BacktestEngines {
  import opened Common
  import opened Execution
  import opened Ledger
  import opened Portfolios
  import opened Backtest

  class BacktestEngine {
    const setup: Setup
    const portfolio: Portfolio
    var nextOrderId: int
    ghost var journal: seq<Filling>

    ghost function View(pending: Option<Waiting>): Progress
      reads this, portfolio, portfolio.position
    {
      Progress(portfolio.View(), pending, nextOrderId, journal)
    }

    constructor (setup: Setup, starting: real, leverage: real)
      requires starting > 0.0 && leverage > 0.0
      ensures View(None) == Begin(starting, leverage) && this.setup == setup
      ensures fresh(portfolio) && fresh(portfolio.position)
    {
      this.setup := setup;
      var p := new Portfolio(starting, leverage);
      portfolio := p;
      nextOrderId, journal := 0, [];
    }

    method OrderFromSignal(signal: Signal, bar: Bar, index: nat) returns (pending: Option<Waiting>)
      modifies this, portfolio
      ensures View(pending) == Backtest.OrderFromSignal(setup, old(View(None)), signal, bar, index)
    {
      hide SizeFor, Worth;
      pending := None;
      if signal.BuySignal? && !portfolio.View().position.IsOpen() {
        var quantity := EntryQuantity(setup, portfolio.View(), bar.close);
        if quantity <= 0.0 {
          return;
        }
        nextOrderId := nextOrderId + 1;
        var order := NewOrder(nextOrderId, Buy, Entry, quantity, bar.close, bar.timestamp)
                       .(reserved := Worth(bar.close, quantity));
        portfolio.Reserve(order.reserved);
        portfolio.RecordOrder(order);
        pending := Some(Waiting(order, index));
      } else if signal.ExitSignal? && portfolio.View().position.IsOpen() {
        nextOrderId := nextOrderId + 1;
        var order := NewOrder(nextOrderId, Sell, Exit, portfolio.position.quantity, bar.close, bar.timestamp);
        portfolio.RecordOrder(order);
        pending := Some(Waiting(order, index));
      }
    }

    method ExecuteOrder(order: Order, bar: Bar, index: nat, ghost signalled: nat, ghost forced: bool)
      requires order.fill.None? && order.quantity > 0.0
      modifies this`journal, portfolio, portfolio.position
      ensures View(None) == Executed(setup, old(View(None)), order, bar, index, signalled, forced)
    {
      hide ApplyOrder, Adjust, Cost;
      var done := Execute(setup.executor, order, bar.close, bar.timestamp);
      RaisesIff(portfolio.View(), done, index);
      var after, _, raised := portfolio.ApplyOrder(done, index);
      assert !raised;
      if after.status.Filled? {
        journal := journal + [Filling(order.side, signalled, index, forced)];
      }
    }

    /** The whole run; `signals` is what the strategy answers to each brick. */
    method Run(bars: seq<Bar>, signals: seq<Signal>)
      requires |signals| == |bars|
      modifies this, portfolio, portfolio.position
      ensures View(None) == Backtest.ForceClose(setup, CancelPending(Bars(setup, old(View(None)), bars, signals)), bars)
    {
      hide Executed, Backtest.OrderFromSignal, Backtest.ForceClose;
      ghost var start := View(None);
      var pending: Option<Waiting> := None;
      var index := 0;
      assert bars[..0] == [] && signals[..0] == [];
      while index < |bars|
        invariant 0 <= index <= |bars|
        invariant View(pending) == Bars(setup, start, bars[..index], signals[..index])
        invariant Ready(View(pending))
      {
        assert bars[..index + 1][..index] == bars[..index] && signals[..index + 1][..index] == signals[..index];
        var bar := bars[index];
        ghost var before := Bars(setup, start, bars[..index], signals[..index]);
        if pending.Some? {
          ExecutedIgnoresPending(setup, before, bar, index);
          ExecuteOrder(pending.value.order, bar, index, pending.value.signalled, false);
        }
        assert View(None) == FillPending(setup, before, bar, index);
        portfolio.Mark(bar.timestamp, bar.close);
        pending := OrderFromSignal(signals[index], bar, index);
        assert View(pending) == Step(setup, before, bar, index, signals[index]);
        index := index + 1;
      }
      assert bars[..index] == bars && signals[..index] == signals;
      if pending.Some? {
        portfolio.Release(pending.value.order.reserved);
      }
      ForceClose(bars);
    }

    /** An open position is closed at the last brick. */
    method ForceClose(bars: seq<Bar>)
      modifies this, portfolio, portfolio.position
      ensures View(None) == Backtest.ForceClose(setup, old(View(None)), bars)
    {
      hide Executed;
      if setup.forceClose && bars != [] && portfolio.View().position.IsOpen() {
        var last := bars[|bars| - 1];
        nextOrderId := nextOrderId + 1;
        var order := NewOrder(nextOrderId, Sell, Exit, portfolio.position.quantity, last.close, last.timestamp);
        portfolio.RecordOrder(order);
        ExecuteOrder(order, last, |bars| - 1, |bars| - 1, true);
        portfolio.Mark(last.timestamp, last.close);
      }
    }
  }

  lemma ExecutedIgnoresPending(s: Setup, p: Progress, bar: Bar, index: nat)
    requires Ready(p) && p.pending.Some?
    ensures FillPending(s, p, bar, index) ==
            Executed(s, p.(pending := None), p.pending.value.order, bar, index, p.pending.value.signalled, false)
  {
    hide ApplyOrder, Execute;
  }
}
