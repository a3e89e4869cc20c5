/** Position and portfolio: what fills do to cash, holdings and the trade list. */
module Ledger {
  import opened Common
  import opened Execution

  // ---- position -----------------------------------------------------------------

  datatype Trade = Trade(quantity: real, entryPrice: real, exitPrice: real, entryTime: Option<int>, exitTime: int,
                         entryCost: real, exitCost: real, gross: real, net: real, returnPct: real, barsHeld: int)

  datatype PositionState = PositionState(long: bool, quantity: real, average: real, realized: real,
                                         entryCost: real, entryTime: Option<int>, entryBar: Option<int>)
  {
    predicate IsOpen() {
      long && quantity > 0.0
    }

    function MarketValue(mark: real): real {
      if IsOpen() then quantity * mark else 0.0
    }

    function Unrealized(mark: real): real {
      if IsOpen() then (mark - average) * quantity else 0.0
    }

    /** Entry notional and entry cost of what is held. */
    function Invested(): real {
      if IsOpen() then average * quantity + entryCost else 0.0
    }
  }

  const FLAT := PositionState(false, 0.0, 0.0, 0.0, 0.0, None, None)

  function Blend(average: real, quantity: real, price: real, added: real): real
    requires quantity + added != 0.0
  {
    (average * quantity + price * added) / (quantity + added)
  }

  /** Opens a position, or scales into the open one by re-averaging. */
  function OpenLong(p: PositionState, price: real, quantity: real, cost: real, at: int, bar: int): PositionState
    requires quantity > 0.0
  {
    if !p.IsOpen() then
      PositionState(true, quantity, price, p.realized, cost, Some(at), Some(bar))
    else
      p.(average := Blend(p.average, p.quantity, price, quantity), quantity := p.quantity + quantity,
         entryCost := p.entryCost + cost)
  }

  function Ratio(x: real, y: real): real {
    if y == 0.0 then 0.0 else x / y
  }

  function Worth(price: real, quantity: real): real {
    price * quantity
  }

  function Gross(exit: real, entry: real, quantity: real): real {
    (exit - entry) * quantity
  }

  function TradeOf(p: PositionState, price: real, cost: real, at: int, bar: int): Trade {
    var gross := Gross(price, p.average, p.quantity);
    var net := gross - p.entryCost - cost;
    Trade(p.quantity, p.average, price, p.entryTime, at, p.entryCost, cost, gross, net,
          Ratio(net, Worth(p.average, p.quantity)), if p.entryBar.Some? then bar - p.entryBar.value else 0)
  }

  /** Closes all of an open position; a flat one yields no trade. */
  function Close(p: PositionState, price: real, cost: real, at: int, bar: int): (PositionState, Option<Trade>) {
    if !p.IsOpen() then (p, None)
    else
      var t := TradeOf(p, price, cost, at, bar);
      (FLAT.(realized := p.realized + t.net), Some(t))
  }

  // ---- portfolio -------------------------------------------------------------------

  const TOLERANCE := 0.000000001

  datatype EquityPoint = EquityPoint(timestamp: int, equity: real)

  datatype Account = Account(starting: real, cash: real, reserved: real, leverage: real, position: PositionState,
                             trades: seq<Trade>, orders: seq<int>, curve: seq<EquityPoint>,
                             brokerage: real, slippage: real)
  {
    function Available(): real { cash - reserved }

    function BuyingPower(): real { Available() * leverage }

    function Equity(price: real): real { cash + position.MarketValue(price) }
  }

  function NewAccount(starting: real, leverage: real): Account {
    Account(starting, starting, 0.0, leverage, FLAT, [], [], [], 0.0, 0.0)
  }

  function Reserve(a: Account, amount: real): Account {
    a.(reserved := a.reserved + Max(0.0, amount))
  }

  function Release(a: Account, amount: real): Account {
    a.(reserved := Max(0.0, a.reserved - Max(0.0, amount)))
  }

  function RecordOrder(a: Account, order: Order): Account {
    a.(orders := a.orders + [order.id])
  }

  function Mark(a: Account, timestamp: int, price: real): Account {
    a.(curve := a.curve + [EquityPoint(timestamp, a.Equity(price))])
  }

  /** What a fill left behind; `raised` where the source raises, which is after the debit. */
  datatype Applied = Applied(account: Account, order: Order, trade: Option<Trade>, raised: bool)

  function Unreserved(a: Account, order: Order): Account {
    if order.side.Buy? then Release(a, order.reserved) else a
  }

  /** The cash covers the notional and the cost of the fill, to a billionth. */
  predicate Affordable(a: Account, f: Fill) {
    f.price * f.quantity + f.cost <= a.cash + 0.000000001
  }

  function Debited(a: Account, f: Fill): Account {
    a.(cash := a.cash - (f.Notional() + f.cost), brokerage := a.brokerage + f.cost, slippage := a.slippage + f.Slippage())
  }

  /** A buy the cash covers opens or extends the position; one it does not is rejected. A buy of
      nothing is paid for before the position refuses it. A sell is credited and closes the whole
      position. An order without a fill only releases. */
  function ApplyOrder(a: Account, order: Order, bar: int): Applied {
    var freed := Unreserved(a, order);
    if order.fill.None? then Applied(freed, order, None, false)
    else
      var f := order.fill.value;
      if order.side.Buy? then
        if f.Notional() + f.cost > freed.cash + TOLERANCE then Applied(freed, order.Refused(), None, false)
        else
          var paid := Debited(freed, f);
          if f.quantity <= 0.0 then Applied(paid, order, None, true)
          else Applied(paid.(position := OpenLong(freed.position, f.price, f.quantity, f.cost, f.timestamp, bar)),
                       order, None, false)
      else
        var (position, trade) := Close(freed.position, f.price, f.cost, f.timestamp, bar);
        Applied(freed.(cash := freed.cash + (f.Notional() - f.cost),
                       brokerage := freed.brokerage + f.cost, slippage := freed.slippage + f.Slippage(),
                       position := position,
                       trades := freed.trades + if trade.Some? then [trade.value] else []),
                order, trade, false)
  }

  // ---- the two accounts of the same money -----------------------------------------------

  function SumNet(ts: seq<Trade>): real {
    if ts == [] then 0.0 else SumNet(ts[..|ts| - 1]) + ts[|ts| - 1].net
  }

  function SumGross(ts: seq<Trade>): real {
    if ts == [] then 0.0 else SumGross(ts[..|ts| - 1]) + ts[|ts| - 1].gross
  }

  function SumCosts(ts: seq<Trade>): real {
    if ts == [] then 0.0 else SumCosts(ts[..|ts| - 1]) + ts[|ts| - 1].entryCost + ts[|ts| - 1].exitCost
  }

  lemma {:induction false} SumsOfAppend(ts: seq<Trade>, t: Trade)
    ensures SumNet(ts + [t]) == SumNet(ts) + t.net
    ensures SumGross(ts + [t]) == SumGross(ts) + t.gross
    ensures SumCosts(ts + [t]) == SumCosts(ts) + t.entryCost + t.exitCost
  {
    assert (ts + [t])[..|ts|] == ts;
  }

  /** A trade's figures agree with each other. */
  predicate Coherent(t: Trade) {
    t.quantity > 0.0 && t.gross == Gross(t.exitPrice, t.entryPrice, t.quantity) && t.net == t.gross - t.entryCost - t.exitCost
  }

  /** The books balance: cash is starting capital plus realised net P&L minus what the open
      position cost, and all brokerage paid is in the trades or the open position. */
  ghost predicate Balanced(a: Account) {
    && a.cash == a.starting + SumNet(a.trades) - a.position.Invested()
    && a.brokerage == SumCosts(a.trades) + (if a.position.IsOpen() then a.position.entryCost else 0.0)
    && a.position.realized == SumNet(a.trades)
    && SumNet(a.trades) == SumGross(a.trades) - SumCosts(a.trades)
    && (forall i | 0 <= i < |a.trades| :: Coherent(a.trades[i]))
  }

  /** Re-averaging preserves the total entry notional. */
  lemma BlendPreservesNotional(average: real, quantity: real, price: real, added: real)
    requires quantity + added > 0.0
    ensures Blend(average, quantity, price, added) * (quantity + added) == average * quantity + price * added
  {
    QuotientTimes(average * quantity + price * added, quantity + added);
  }

  lemma QuotientTimes(x: real, y: real)
    requires y != 0.0
    ensures (x / y) * y == x
  {
  }

  lemma OpenLongInvests(p: PositionState, price: real, quantity: real, cost: real, at: int, bar: int)
    requires quantity > 0.0
    ensures var r := OpenLong(p, price, quantity, cost, at, bar);
            && r.IsOpen()
            && r.quantity == (if p.IsOpen() then p.quantity else 0.0) + quantity
            && (if p.IsOpen() then r.entryTime == p.entryTime && r.entryBar == p.entryBar
                else r.entryTime == Some(at) && r.entryBar == Some(bar))
            && r.Invested() == p.Invested() + price * quantity + cost
            && r.realized == p.realized
            && r.entryCost == (if p.IsOpen() then p.entryCost else 0.0) + cost
  {
    if p.IsOpen() {
      BlendPreservesNotional(p.average, p.quantity, price, quantity);
    }
  }

  lemma CloseRealizes(p: PositionState, price: real, cost: real, at: int, bar: int)
    requires p.IsOpen()
    ensures var (r, trade) := Close(p, price, cost, at, bar);
            && !r.IsOpen() && trade.Some? && Coherent(trade.value)
            && trade.value.net == price * p.quantity - cost - p.Invested()
            && trade.value.quantity == p.quantity && trade.value.exitPrice == price
            && trade.value.entryTime == p.entryTime && trade.value.exitTime == at
            && (p.entryBar.Some? ==> trade.value.barsHeld == bar - p.entryBar.value)
            && (p.average != 0.0 ==> trade.value.returnPct * (p.average * p.quantity) == trade.value.net)
            && trade.value.entryCost == p.entryCost && trade.value.exitCost == cost
            && r.realized == p.realized + trade.value.net
  {
    assert (price - p.average) * p.quantity == price * p.quantity - p.average * p.quantity;
  }

  /** Releasing takes no more away than is reserved, and undoes a reservation; negative amounts do neither. */
  lemma ReservationComesBack(a: Account, amount: real)
    requires a.reserved >= 0.0
    ensures var r := Release(a, amount);
            && r == a.(reserved := r.reserved)
            && r.reserved == if amount <= 0.0 then a.reserved else if amount <= a.reserved then a.reserved - amount else 0.0
    ensures Release(Reserve(a, amount), amount) == a && (amount <= 0.0 ==> Reserve(a, amount) == a)
  {
  }

  /** A filled buy is refused, with nothing moved but its reservation, exactly when its notional and cost
      are more than the cash; otherwise it is paid for in full and leaves no debt beyond a billionth. */
  lemma BuyIsRefusedIff(a: Account, order: Order, bar: int)
    requires order.side.Buy? && order.fill.Some?
    ensures var f := order.fill.value;
            var total := f.price * f.quantity + f.cost;
            var r := ApplyOrder(a, order, bar);
            && r.trade.None?
            && (if total > a.cash + 0.000000001 then
                  r.order.status.Rejected? && r.account == a.(reserved := r.account.reserved)
                else
                  && r.order == order && r.account.cash == a.cash - total >= -0.000000001
                  && r.account.brokerage == a.brokerage + f.cost
                  && r.account.slippage == a.slippage + Abs(f.price - f.reference) * Abs(f.quantity))
  {
    hide OpenLong;
  }

  /** A filled sell is always credited, with its notional less its cost. */
  lemma SellIsCredited(a: Account, order: Order, bar: int)
    requires order.side.Sell? && order.fill.Some?
    ensures var f := order.fill.value;
            var r := ApplyOrder(a, order, bar);
            && r.order == order && !r.raised && !r.account.position.IsOpen()
            && r.account.cash == a.cash + f.price * f.quantity - f.cost
            && r.account.brokerage == a.brokerage + f.cost
            && r.account.slippage == a.slippage + Abs(f.price - f.reference) * Abs(f.quantity)
  {
    hide TradeOf;
  }

  /** What a fill may take out of the account however little is in it: a sell whose cost is more than
      it brings. */
  function Drain(order: Order): real {
    if order.side.Sell? && order.fill.Some?
    then Max(0.0, order.fill.value.cost - order.fill.value.price * order.fill.value.quantity) else 0.0
  }

  /** No order leaves less cash than there was, or than a debt of a billionth, but for what it drains. */
  lemma CashFloor(a: Account, order: Order, bar: int)
    ensures ApplyOrder(a, order, bar).account.cash >= Min(a.cash, -0.000000001) - Drain(order)
  {
    hide ApplyOrder;
    if order.fill.None? {
      UnfilledMovesNothing(a, order, bar);
    } else if order.side.Buy? {
      BuyIsRefusedIff(a, order, bar);
    } else {
      SellIsCredited(a, order, bar);
    }
  }

  lemma UnfilledMovesNothing(a: Account, order: Order, bar: int)
    requires order.fill.None?
    ensures ApplyOrder(a, order, bar).account == a.(reserved := ApplyOrder(a, order, bar).account.reserved)
  {
  }

  /** A sell that hands over what is held, or changes hands for nothing; a buy of something, or one
      that is refused or costs nothing. Orders without a fill are harmless. */
  predicate Settles(a: Account, order: Order) {
    order.fill.Some? ==>
      var f := order.fill.value;
      if order.side.Buy? then f.quantity > 0.0 || !Affordable(Unreserved(a, order), f) || (f.Notional() == 0.0 && f.cost == 0.0)
      else if a.position.IsOpen() then f.price * f.quantity == f.price * a.position.quantity
      else f.price * f.quantity == 0.0 && f.cost == 0.0
  }

  lemma SellKeepsBalancedIff(a: Account, order: Order, bar: int)
    requires Balanced(a) && order.side.Sell? && order.fill.Some?
    ensures Balanced(ApplyOrder(a, order, bar).account) <==> Settles(a, order)
  {
    hide Gross, Ratio, Blend, Worth, Fill.Slippage;
    var f := order.fill.value;
    if a.position.IsOpen() {
      CloseRealizes(a.position, f.price, f.cost, f.timestamp, bar);
      SumsOfAppend(a.trades, Close(a.position, f.price, f.cost, f.timestamp, bar).1.value);
    } else {
      assert a.trades + [] == a.trades;
    }
  }

  lemma BuyKeepsBalancedIff(a: Account, order: Order, bar: int)
    requires Balanced(a) && order.side.Buy? && order.fill.Some?
    ensures Balanced(ApplyOrder(a, order, bar).account) <==> Settles(a, order)
  {
    hide Gross, Ratio, Blend, Worth, Fill.Slippage;
    var f := order.fill.value;
    if f.quantity > 0.0 {
      OpenLongInvests(a.position, f.price, f.quantity, f.cost, f.timestamp, bar);
    }
  }

  /** The books stay balanced exactly when a sell hands over what is held and no buy of nothing is
      paid for: the portfolio credits any sell, also of more, of less, or of nothing held, and
      debits a buy before the position refuses an empty one. */
  lemma ApplyKeepsBalancedIff(a: Account, order: Order, bar: int)
    requires Balanced(a)
    ensures Balanced(ApplyOrder(a, order, bar).account) <==> Settles(a, order)
  {
    hide ApplyOrder, Balanced;
    if order.fill.Some? {
      if order.side.Buy? {
        BuyKeepsBalancedIff(a, order, bar);
      } else {
        SellKeepsBalancedIff(a, order, bar);
      }
    } else {
      UnfilledKeepsBalanced(a, order, bar);
    }
  }

  lemma UnfilledKeepsBalanced(a: Account, order: Order, bar: int)
    requires Balanced(a) && order.fill.None?
    ensures Balanced(ApplyOrder(a, order, bar).account)
  {
  }

  const SOLD_FROM_NOTHING: Order :=
    Order(1, Sell, Exit, 1.0, 10.0, 0, Filled, Some(Fill(10.0, 1.0, 0.0, 10.0, Sell, 0, None)), 0.0, None)

  lemma NewAccountIsBalanced(starting: real, leverage: real)
    ensures Balanced(NewAccount(starting, leverage))
  {
    assert SumNet([]) == 0.0 && SumGross([]) == 0.0 && SumCosts([]) == 0.0;
  }

  lemma FlatSellIsCredited(a: Account, order: Order, bar: int)
    requires !a.position.IsOpen() && order.side.Sell? && order.fill.Some?
    ensures var after := ApplyOrder(a, order, bar).account;
            after.cash == a.cash + (order.fill.value.Notional() - order.fill.value.cost) && after.trades == a.trades
  {
    hide Gross, Ratio, Worth, Fill.Slippage, Fill.Notional;
    assert a.trades + [] == a.trades;
  }

  /** A sell out of a flat portfolio is credited without a trade: cash is 10 more than the books say. */
  lemma SellFromNothingBreaksBooks(bar: int)
    ensures Balanced(NewAccount(1000.0, 1.0))
    ensures var after := ApplyOrder(NewAccount(1000.0, 1.0), SOLD_FROM_NOTHING, bar).account;
            after.cash == 1010.0 && after.trades == [] && !Balanced(after)
  {
    hide ApplyOrder, Balanced;
    var a := NewAccount(1000.0, 1.0);
    NewAccountIsBalanced(1000.0, 1.0);
    FlatSellIsCredited(a, SOLD_FROM_NOTHING, bar);
    ApplyKeepsBalancedIff(a, SOLD_FROM_NOTHING, bar);
  }

  /** It raises exactly on an affordable buy of nothing. */
  lemma RaisesIff(a: Account, order: Order, bar: int)
    ensures ApplyOrder(a, order, bar).raised
            <==> order.side.Buy? && order.fill.Some? && order.fill.value.quantity <= 0.0
                 && order.fill.value.price * order.fill.value.quantity + order.fill.value.cost <= a.cash + 0.000000001
  {
    hide Blend, Gross, Ratio, Worth, Fill.Slippage;
  }
}
