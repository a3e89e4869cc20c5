/** The position and portfolio objects, proved against the ledger functions. */
module Portfolios {
  import opened Common
  import opened Execution
  import opened Ledger

  class Position {
    var long: bool
    var quantity: real
    var average: real
    var realized: real
    var entryCost: real
    var entryTime: Option<int>
    var entryBar: Option<int>

    function View(): PositionState
      reads this
    {
      PositionState(long, quantity, average, realized, entryCost, entryTime, entryBar)
    }

    constructor ()
      ensures View() == FLAT
    {
      long, quantity, average, realized, entryCost, entryTime, entryBar := false, 0.0, 0.0, 0.0, 0.0, None, None;
    }

    /** Returns false, having changed nothing, for a quantity that is not positive. */
    method OpenLong(price: real, added: real, cost: real, at: int, bar: int) returns (ok: bool)
      modifies this
      ensures ok <==> added > 0.0
      ensures View() == if ok then Ledger.OpenLong(old(View()), price, added, cost, at, bar) else old(View())
    {
      if added <= 0.0 {
        return false;
      }
      ok := true;
      if !(long && quantity > 0.0) {
        long, quantity, average, entryCost := true, added, price, cost;
        entryTime, entryBar := Some(at), Some(bar);
      } else {
        average := Blend(average, quantity, price, added);
        quantity := quantity + added;
        entryCost := entryCost + cost;
      }
    }

    method Close(price: real, cost: real, at: int, bar: int) returns (trade: Option<Trade>)
      modifies this
      ensures (View(), trade) == Ledger.Close(old(View()), price, cost, at, bar)
    {
      hide Gross, Ratio, Worth;
      if !(long && quantity > 0.0) {
        return None;
      }
      var gross := Gross(price, average, quantity);
      var net := gross - entryCost - cost;
      trade := Some(Trade(quantity, average, price, entryTime, at, entryCost, cost, gross, net,
                          Ratio(net, Worth(average, quantity)), if entryBar.Some? then bar - entryBar.value else 0));
      realized := realized + net;
      long, quantity, average, entryCost, entryTime, entryBar := false, 0.0, 0.0, 0.0, None, None;
    }
  }

  class Portfolio {
    const starting: real
    var cash: real
    var reserved: real
    const leverage: real
    const position: Position
    var trades: seq<Trade>
    var orders: seq<int>
    var curve: seq<EquityPoint>
    var brokerage: real
    var slippage: real

    function View(): Account
      reads this, position
    {
      Account(starting, cash, reserved, leverage, position.View(), trades, orders, curve, brokerage, slippage)
    }

    constructor (starting: real, leverage: real)
      requires starting > 0.0 && leverage > 0.0
      ensures View() == NewAccount(starting, leverage) && fresh(position)
    {
      this.starting, this.leverage, cash, reserved := starting, leverage, starting, 0.0;
      var p := new Position();
      position := p;
      trades, orders, curve, brokerage, slippage := [], [], [], 0.0, 0.0;
    }

    method Reserve(amount: real)
      modifies this`reserved
      ensures View() == Ledger.Reserve(old(View()), amount)
    {
      reserved := reserved + Max(0.0, amount);
    }

    method Release(amount: real)
      modifies this`reserved
      ensures View() == Ledger.Release(old(View()), amount)
    {
      reserved := Max(0.0, reserved - Max(0.0, amount));
    }

    method RecordOrder(order: Order)
      modifies this`orders
      ensures View() == Ledger.RecordOrder(old(View()), order)
    {
      orders := orders + [order.id];
    }

    method Mark(timestamp: int, price: real)
      modifies this`curve
      ensures View() == Ledger.Mark(old(View()), timestamp, price)
    {
      var held := if position.long && position.quantity > 0.0 then position.quantity * price else 0.0;
      curve := curve + [EquityPoint(timestamp, cash + held)];
    }

    /** `raised` where the position refuses the fill, which is after it has been paid for. */
    method ApplyOrder(order: Order, bar: int) returns (after: Order, trade: Option<Trade>, raised: bool)
      modifies this, position
      ensures Applied(View(), after, trade, raised) == Ledger.ApplyOrder(old(View()), order, bar)
    {
      hide Blend, Gross, Ratio, Fill.Slippage, Fill.Notional;
      after, trade, raised := order, None, false;
      if order.side.Buy? {
        Release(order.reserved);
      }
      if order.fill.None? {
        return;
      }
      var f := order.fill.value;
      if order.side.Buy? {
        var total := f.Notional() + f.cost;
        if total > cash + TOLERANCE {
          after := order.Refused();
          return;
        }
        cash := cash - total;
        brokerage := brokerage + f.cost;
        slippage := slippage + f.Slippage();
        var ok := position.OpenLong(f.price, f.quantity, f.cost, f.timestamp, bar);
        raised := !ok;
        return;
      }
      cash := cash + (f.Notional() - f.cost);
      brokerage := brokerage + f.cost;
      slippage := slippage + f.Slippage();
      trade := position.Close(f.price, f.cost, f.timestamp, bar);
      if trade.Some? {
        trades := trades + [trade.value];
      }
    }
  }
}
