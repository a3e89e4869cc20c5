/** The backtest loop: next-brick fills, reservations, forced close, and its books. */
module Backtest {
  import opened Common
  import opened Execution
  import opened Ledger

  datatype Bar = Bar(close: real, timestamp: int)

  datatype Signal = BuySignal | SellSignal | ExitSignal | HoldSignal

  datatype Setup = Setup(executor: Executor, fraction: real, fixedQuantity: Option<real>, forceClose: bool)

  /** An order waiting for the next brick, and the brick that signalled it. */
  datatype Waiting = Waiting(order: Order, signalled: nat)

  /** One effective fill: which brick signalled it, which brick filled it. */
  datatype Filling = Filling(side: Side, signalled: nat, filled: nat, forced: bool)

  datatype Progress = Progress(account: Account, pending: Option<Waiting>, nextId: int, journal: seq<Filling>)

  function Begin(starting: real, leverage: real): Progress {
    Progress(NewAccount(starting, leverage), None, 0, [])
  }

  function EntryQuantity(s: Setup, a: Account, reference: real): real {
    if s.fixedQuantity.Some? then s.fixedQuantity.value
    else if reference <= 0.0 then 0.0
    else SizeFor(a.BuyingPower(), s.fraction, reference)
  }

  function SizeFor(power: real, fraction: real, reference: real): real
    requires reference > 0.0
  {
    power * fraction / reference
  }

  /** An unfilled order of positive quantity is the only kind that waits. */
  predicate Ready(p: Progress) {
    p.pending.Some? ==> p.pending.value.order.fill.None? && p.pending.value.order.quantity > 0.0
  }

  function Executed(s: Setup, p: Progress, order: Order, bar: Bar, index: nat, signalled: nat, forced: bool): Progress
    requires order.fill.None? && order.quantity > 0.0
  {
    var applied := ApplyOrder(p.account, Execute(s.executor, order, bar.close, bar.timestamp), index);
    p.(account := applied.account,
       journal := p.journal + if applied.order.status.Filled? then [Filling(order.side, signalled, index, forced)] else [])
  }

  /** 1. Fill the order pending from the previous brick at this brick's close. */
  function FillPending(s: Setup, p: Progress, bar: Bar, index: nat): Progress
    requires Ready(p)
  {
    if p.pending.None? then p
    else Executed(s, p, p.pending.value.order, bar, index, p.pending.value.signalled, false).(pending := None)
  }

  /** 3. Turn the strategy's signal into the next pending order. */
  function OrderFromSignal(s: Setup, p: Progress, signal: Signal, bar: Bar, index: nat): Progress {
    var a := p.account;
    match signal
    case BuySignal =>
      var quantity := EntryQuantity(s, a, bar.close);
      if a.position.IsOpen() || quantity <= 0.0 then p
      else
        var order := NewOrder(p.nextId + 1, Buy, Entry, quantity, bar.close, bar.timestamp)
                       .(reserved := Worth(bar.close, quantity));
        p.(account := RecordOrder(Reserve(a, order.reserved), order), pending := Some(Waiting(order, index)),
           nextId := p.nextId + 1)
    case ExitSignal =>
      if !a.position.IsOpen() then p
      else
        var order := NewOrder(p.nextId + 1, Sell, Exit, a.position.quantity, bar.close, bar.timestamp);
        p.(account := RecordOrder(a, order), pending := Some(Waiting(order, index)), nextId := p.nextId + 1)
    case _ => p
  }

  function Step(s: Setup, p: Progress, bar: Bar, index: nat, signal: Signal): (r: Progress)
    requires Ready(p)
    ensures Ready(r)
  {
    var filled := FillPending(s, p, bar, index);
    var marked := filled.(account := Mark(filled.account, bar.timestamp, bar.close));
    OrderFromSignal(s, marked, signal, bar, index)
  }

  function Bars(s: Setup, p: Progress, bars: seq<Bar>, signals: seq<Signal>): (r: Progress)
    requires Ready(p) && |signals| == |bars|
    ensures Ready(r)
  {
    if bars == [] then p
    else
      var n := |bars| - 1;
      Step(s, Bars(s, p, bars[..n], signals[..n]), bars[n], n, signals[n])
  }

  /** A still-pending order is cancelled and its reservation released. */
  function CancelPending(p: Progress): Progress {
    if p.pending.None? then p
    else p.(account := Release(p.account, p.pending.value.order.reserved), pending := None)
  }

  /** An open position is closed at the last brick's close, and the account marked again. */
  function ForceClose(s: Setup, p: Progress, bars: seq<Bar>): Progress {
    if !s.forceClose || bars == [] || !p.account.position.IsOpen() then p
    else
      var n := |bars| - 1;
      var order := NewOrder(p.nextId + 1, Sell, Exit, p.account.position.quantity, bars[n].close, bars[n].timestamp);
      var recorded := p.(account := RecordOrder(p.account, order), nextId := p.nextId + 1);
      var closed := Executed(s, recorded, order, bars[n], n, n, true);
      closed.(account := Mark(closed.account, bars[n].timestamp, bars[n].close))
  }

  function Outcome(s: Setup, starting: real, leverage: real, bars: seq<Bar>, signals: seq<Signal>): Progress
    requires |signals| == |bars|
  {
    ForceClose(s, CancelPending(Bars(s, Begin(starting, leverage), bars, signals)), bars)
  }

  // ---- metrics ---------------------------------------------------------------------

  function EndingEquity(a: Account): real {
    if a.curve == [] then a.starting else a.curve[|a.curve| - 1].equity
  }

  function TotalPnl(a: Account): real {
    EndingEquity(a) - a.starting
  }

  // ---- the books ---------------------------------------------------------------------

  /** What a pending order has reserved. */
  function Earmarked(pending: Option<Waiting>): real {
    if pending.Some? then Max(0.0, pending.value.order.reserved) else 0.0
  }

  /** Between bricks: balanced books, an exact reservation, and a pending order that fits the position. */
  ghost predicate Sound(p: Progress) {
    && Ready(p)
    && Balanced(p.account)
    && p.account.reserved == Earmarked(p.pending)
    && (p.pending.Some? ==>
          var order := p.pending.value.order;
          if order.side.Buy? then !p.account.position.IsOpen()
          else p.account.position.IsOpen() && order.quantity == p.account.position.quantity && order.reserved == 0.0)
  }

  lemma BeginIsSound(starting: real, leverage: real)
    ensures Sound(Begin(starting, leverage))
  {
    assert SumNet([]) == 0.0 && SumGross([]) == 0.0 && SumCosts([]) == 0.0;
  }

  /** Releasing what was reserved for an order leaves nothing reserved, clamp or not. */
  lemma ApplyReleases(a: Account, order: Order, bar: int)
    ensures var r := ApplyOrder(a, order, bar).account;
            && (order.side.Buy? ==> r.reserved == Release(a, order.reserved).reserved)
            && (order.side.Sell? ==> r.reserved == a.reserved)
            && r.starting == a.starting && r.curve == a.curve && r.leverage == a.leverage
  {
  }

  lemma ExecutedKeepsBalanced(s: Setup, p: Progress, order: Order, bar: Bar, index: nat, signalled: nat, forced: bool)
    requires order.fill.None? && order.quantity > 0.0 && Balanced(p.account)
    requires order.side.Sell? ==> p.account.position.IsOpen() && order.quantity == p.account.position.quantity
    ensures Balanced(Executed(s, p, order, bar, index, signalled, forced).account)
  {
    hide ApplyOrder, Balanced, Adjust, Cost;
    var done := Execute(s.executor, order, bar.close, bar.timestamp);
    assert done.fill.Some? ==> done.fill.value.quantity == order.quantity;
    ApplyKeepsBalancedIff(p.account, done, index);
  }

  lemma FillPendingKeepsSound(s: Setup, p: Progress, bar: Bar, index: nat)
    requires Sound(p)
    ensures Sound(FillPending(s, p, bar, index))
  {
    hide Balanced, Adjust, Cost;
    if p.pending.Some? {
      var order := p.pending.value.order;
      ExecutedKeepsBalanced(s, p, order, bar, index, p.pending.value.signalled, false);
      ExecutedReleases(s, p, order, bar, index, p.pending.value.signalled, false);
    }
  }

  lemma ExecutedReleases(s: Setup, p: Progress, order: Order, bar: Bar, index: nat, signalled: nat, forced: bool)
    requires order.fill.None? && order.quantity > 0.0
    requires order.side.Buy? ==> p.account.reserved == Max(0.0, order.reserved)
    requires order.side.Sell? ==> p.account.reserved == 0.0
    ensures Executed(s, p, order, bar, index, signalled, forced).account.reserved == 0.0
  {
    hide ApplyOrder, Adjust, Cost;
    ApplyReleases(p.account, Execute(s.executor, order, bar.close, bar.timestamp), index);
  }

  /** Marking, reserving and recording touch neither the cash nor the position nor the trades. */
  lemma BookkeepingKeepsBalanced(a: Account, b: Account)
    requires Balanced(a) && b == a.(reserved := b.reserved, orders := b.orders, curve := b.curve)
    ensures Balanced(b)
  {
  }

  lemma StepKeepsSound(s: Setup, p: Progress, bar: Bar, index: nat, signal: Signal)
    requires Sound(p)
    ensures Sound(Step(s, p, bar, index, signal))
  {
    hide Balanced, FillPending, SizeFor, Worth;
    FillPendingKeepsSound(s, p, bar, index);
    var filled := FillPending(s, p, bar, index);
    assert filled.pending.None? by { FillPendingClears(s, p, bar, index); }
    BookkeepingKeepsBalanced(filled.account, Step(s, p, bar, index, signal).account);
  }

  lemma FillPendingClears(s: Setup, p: Progress, bar: Bar, index: nat)
    requires Ready(p)
    ensures FillPending(s, p, bar, index).pending.None?
  {
  }

  lemma {:induction false} BarsAreSound(s: Setup, p: Progress, bars: seq<Bar>, signals: seq<Signal>)
    requires Sound(p) && |signals| == |bars|
    ensures Sound(Bars(s, p, bars, signals))
  {
    hide Balanced, Step;
    if bars != [] {
      var n := |bars| - 1;
      BarsAreSound(s, p, bars[..n], signals[..n]);
      StepKeepsSound(s, Bars(s, p, bars[..n], signals[..n]), bars[n], n, signals[n]);
    }
  }

  // ---- the equity curve ---------------------------------------------------------------

  /** The curve has one point per brick, and the last one is cash plus holdings at the last close. */
  ghost predicate Marked(p: Progress, starting: real, bars: seq<Bar>) {
    && p.account.starting == starting
    && (bars == [] ==> p.account.curve == [] && p.account.cash == starting && !p.account.position.IsOpen())
    && (bars != [] ==> p.account.curve != []
                       && p.account.curve[|p.account.curve| - 1].equity == p.account.Equity(bars[|bars| - 1].close))
  }

  lemma OrderFromSignalFrame(s: Setup, p: Progress, signal: Signal, bar: Bar, index: nat)
    ensures var r := OrderFromSignal(s, p, signal, bar, index);
            && r.account == p.account.(reserved := r.account.reserved, orders := r.account.orders)
            && r.journal == p.journal
            && (p.pending.None? && r.pending.Some? ==> r.pending.value.signalled == index)
  {
    hide SizeFor, Worth;
  }

  /** A buy signal becomes an order exactly when nothing is held and there is something to spend: then
      for the fixed quantity, or for the configured fraction of the buying power, which is the leverage
      times the cash that is not reserved. What it would cost at this close is reserved. */
  lemma EntrySpendsItsFraction(s: Setup, p: Progress, bar: Bar, index: nat)
    requires p.pending.None?
    ensures var r := OrderFromSignal(s, p, BuySignal, bar, index);
            var budget := (p.account.cash - p.account.reserved) * p.account.leverage * s.fraction;
            && (r.pending.Some? <==>
                  && !p.account.position.IsOpen()
                  && if s.fixedQuantity.Some? then s.fixedQuantity.value > 0.0 else bar.close > 0.0 && budget > 0.0)
            && (r.pending.Some? ==>
                  var order := r.pending.value.order;
                  && order.id == p.nextId + 1 == r.nextId && r.pending.value.signalled == index
                  && order.side.Buy? && order.intent.Entry? && order.status.Created? && order.fill.None?
                  && order.reference == bar.close && order.createdAt == bar.timestamp
                  && (if s.fixedQuantity.Some? then order.quantity == s.fixedQuantity.value
                      else order.quantity * bar.close == budget)
                  && order.reserved == order.quantity * bar.close
                  && r.account.reserved == p.account.reserved + Max(0.0, order.reserved))
  {
    if s.fixedQuantity.None? && bar.close > 0.0 {
      SizeSpends(p.account.BuyingPower(), s.fraction, bar.close);
    }
  }

  /** An exit waits exactly where a position is open, and sells all of it; a sell signal, which a long-only
      account has no use for, does as little as a hold. */
  lemma ExitSellsTheHolding(s: Setup, p: Progress, signal: Signal, bar: Bar, index: nat)
    requires p.pending.None? && !signal.BuySignal?
    ensures var r, held := OrderFromSignal(s, p, signal, bar, index), p.account.position;
            if signal.ExitSignal? && held.long && held.quantity > 0.0 then
              && r.account == p.account.(orders := p.account.orders + [p.nextId + 1]) && r.nextId == p.nextId + 1
              && r.journal == p.journal
              && r.pending == Some(Waiting(Order(p.nextId + 1, Sell, Exit, held.quantity, bar.close, bar.timestamp, Created,
                                                 None, 0.0, None), index))
            else r == p
  {
  }

  /** A run keeps the capital and the leverage it began with. */
  lemma {:induction false} TermsAreKept(s: Setup, starting: real, leverage: real, bars: seq<Bar>, signals: seq<Signal>)
    requires |signals| == |bars|
    ensures var a := Bars(s, Begin(starting, leverage), bars, signals).account;
            a.starting == starting && a.leverage == leverage
  {
    hide Execute, ApplyOrder, Mark;
    if bars != [] {
      var n := |bars| - 1;
      TermsAreKept(s, starting, leverage, bars[..n], signals[..n]);
      var p := Bars(s, Begin(starting, leverage), bars[..n], signals[..n]);
      StepKeepsTerms(s, p, bars[n], n, signals[n]);
    }
  }

  lemma StepKeepsTerms(s: Setup, p: Progress, bar: Bar, index: nat, signal: Signal)
    requires Ready(p)
    ensures var a := Step(s, p, bar, index, signal).account;
            a.starting == p.account.starting && a.leverage == p.account.leverage
  {
    hide Execute, ApplyOrder;
    if p.pending.Some? {
      ApplyReleases(p.account, Execute(s.executor, p.pending.value.order, bar.close, bar.timestamp), index);
    }
  }

  lemma SizeSpends(power: real, fraction: real, reference: real)
    requires reference > 0.0
    ensures SizeFor(power, fraction, reference) * reference == power * fraction
    ensures SizeFor(power, fraction, reference) > 0.0 <==> power * fraction > 0.0
  {
    QuotientSign(power * fraction, reference, SizeFor(power, fraction, reference));
  }

  lemma QuotientSign(x: real, y: real, q: real)
    requires y > 0.0 && q == x / y
    ensures q * y == x && (q > 0.0 <==> x > 0.0)
  {
  }

  lemma FillPendingFrame(s: Setup, p: Progress, bar: Bar, index: nat)
    requires Ready(p)
    ensures var r := FillPending(s, p, bar, index);
            r.account.starting == p.account.starting && r.account.curve == p.account.curve
  {
    hide ApplyOrder, Execute;
    if p.pending.Some? {
      var done := Execute(s.executor, p.pending.value.order, bar.close, bar.timestamp);
      ExecuteQuantity(s.executor, p.pending.value.order, bar.close, bar.timestamp);
      ApplyReleases(p.account, done, index);
    }
  }

  lemma ExecuteQuantity(x: Executor, order: Order, reference: real, timestamp: int)
    requires order.fill.None?
    ensures var r := Execute(x, order, reference, timestamp);
            && r == order.(status := r.status, fill := r.fill)
            && (r.status.Filled? <==> reference > 0.0) && (r.fill.Some? <==> reference > 0.0)
            && (r.fill.Some? ==> r.fill.value.quantity == order.quantity
                                 && r.fill.value.price == Adjust(x.slippage, reference, order.side))
  {
    hide Adjust, Cost;
  }

  lemma {:induction false} BarsAreMarked(s: Setup, starting: real, leverage: real, bars: seq<Bar>, signals: seq<Signal>)
    requires |signals| == |bars|
    ensures Marked(Bars(s, Begin(starting, leverage), bars, signals), starting, bars)
  {
    hide FillPending, OrderFromSignal;
    if bars != [] {
      var n := |bars| - 1;
      BarsAreMarked(s, starting, leverage, bars[..n], signals[..n]);
      var before := Bars(s, Begin(starting, leverage), bars[..n], signals[..n]);
      FillPendingFrame(s, before, bars[n], n);
      var filled := FillPending(s, before, bars[n], n);
      var marked := filled.(account := Mark(filled.account, bars[n].timestamp, bars[n].close));
      OrderFromSignalFrame(s, marked, signals[n], bars[n], n);
    }
  }

  // ---- the theorem ----------------------------------------------------------------------

  lemma CancelKeepsSound(p: Progress)
    requires Sound(p)
    ensures Sound(CancelPending(p)) && CancelPending(p).account.reserved == 0.0
    ensures CancelPending(p).account == p.account.(reserved := 0.0)
  {
    hide Balanced;
    BookkeepingKeepsBalanced(p.account, CancelPending(p).account);
  }

  lemma ForceCloseKeepsSound(s: Setup, p: Progress, bars: seq<Bar>)
    requires Sound(p) && p.pending.None?
    ensures Sound(ForceClose(s, p, bars)) && ForceClose(s, p, bars).pending.None?
  {
    hide Balanced, ApplyOrder, Execute;
    if s.forceClose && bars != [] && p.account.position.IsOpen() {
      var n := |bars| - 1;
      var order := NewOrder(p.nextId + 1, Sell, Exit, p.account.position.quantity, bars[n].close, bars[n].timestamp);
      var recorded := p.(account := RecordOrder(p.account, order), nextId := p.nextId + 1);
      BookkeepingKeepsBalanced(p.account, recorded.account);
      ExecutedKeepsBalanced(s, recorded, order, bars[n], n, n, true);
      ExecutedReleases(s, recorded, order, bars[n], n, n, true);
      var closed := Executed(s, recorded, order, bars[n], n, n, true);
      BookkeepingKeepsBalanced(closed.account, ForceClose(s, p, bars).account);
    }
  }

  /** A forced close leaves a position exactly when the last close is not positive. */
  lemma ForceCloseFlattens(s: Setup, p: Progress, bars: seq<Bar>)
    requires s.forceClose && bars != []
    ensures ForceClose(s, p, bars).account.position.IsOpen() <==>
            p.account.position.IsOpen() && bars[|bars| - 1].close <= 0.0
  {
    hide Adjust, Cost, Gross, Ratio, Worth;
  }

  const FREE := Setup(Executor(ZeroSlippage, ZeroBrokerage, 0), 1.0, Some(1.0), true)

  /** Bought at 100 and ending at 0: the run closes by force and still holds. */
  lemma ClosingAtZeroLeavesThePosition()
    ensures var bars := [Bar(100.0, 0), Bar(100.0, 1), Bar(0.0, 2)];
            Outcome(FREE, 1000.0, 1.0, bars, [BuySignal, HoldSignal, HoldSignal]).account.position.IsOpen()
  {
    hide Bars, Step, ForceClose;
    var bars, signals := [Bar(100.0, 0), Bar(100.0, 1), Bar(0.0, 2)], [BuySignal, HoldSignal, HoldSignal];
    var p0 := Begin(1000.0, 1.0);
    var p1 := Step(FREE, p0, bars[0], 0, BuySignal);
    Bought(p0, bars[0]);
    var p2 := Step(FREE, p1, bars[1], 1, HoldSignal);
    HeldFrom(p1, bars[1], 1);
    var p3 := Step(FREE, p2, bars[2], 2, HoldSignal);
    HeldStill(p2, bars[2], 2);
    ThreeBars(FREE, p0, bars, signals);
    ForceCloseFlattens(FREE, p3, bars);
  }

  lemma Bought(p: Progress, bar: Bar)
    requires p.pending.None? && !p.account.position.IsOpen()
    ensures var r := Step(FREE, p, bar, 0, BuySignal);
            && r.account.cash == p.account.cash && !r.account.position.IsOpen()
            && r.pending.Some? && r.pending.value.order.side.Buy? && r.pending.value.order.quantity == 1.0
  {
  }

  lemma HeldFrom(p: Progress, bar: Bar, index: nat)
    requires Ready(p) && p.pending.Some? && p.pending.value.order.side.Buy? && p.pending.value.order.quantity == 1.0
    requires p.account.cash >= 100.0 && bar.close == 100.0 && !p.account.position.IsOpen()
    ensures var r := Step(FREE, p, bar, index, HoldSignal); r.account.position.IsOpen() && r.pending.None?
  {
    hide Worth, Gross, Ratio;
  }

  lemma HeldStill(p: Progress, bar: Bar, index: nat)
    requires p.pending.None?
    ensures var r := Step(FREE, p, bar, index, HoldSignal); r.account.position == p.account.position && r.pending.None?
  {
  }

  lemma ThreeBars(s: Setup, p: Progress, bars: seq<Bar>, signals: seq<Signal>)
    requires Ready(p) && |bars| == |signals| == 3
    ensures Bars(s, p, bars, signals)
            == Step(s, Step(s, Step(s, p, bars[0], 0, signals[0]), bars[1], 1, signals[1]), bars[2], 2, signals[2])
  {
    hide Step;
    assert bars[..2][..1] == bars[..1] && signals[..2][..1] == signals[..1] && bars[..1][..0] == [] && signals[..1][..0] == [];
    assert Bars(s, p, bars[..1], signals[..1]) == Step(s, p, bars[0], 0, signals[0]);
  }

  lemma ForceCloseKeepsMarked(s: Setup, p: Progress, starting: real, bars: seq<Bar>)
    requires Marked(p, starting, bars)
    ensures Marked(ForceClose(s, p, bars), starting, bars)
  {
    hide ApplyOrder, Execute;
    if s.forceClose && bars != [] && p.account.position.IsOpen() {
      var n := |bars| - 1;
      var order := NewOrder(p.nextId + 1, Sell, Exit, p.account.position.quantity, bars[n].close, bars[n].timestamp);
      var recorded := p.(account := RecordOrder(p.account, order), nextId := p.nextId + 1);
      ExecuteQuantity(s.executor, order, bars[n].close, bars[n].timestamp);
      ApplyReleases(recorded.account, Execute(s.executor, order, bars[n].close, bars[n].timestamp), n);
    }
  }

  lemma ResultIsSound(s: Setup, starting: real, leverage: real, bars: seq<Bar>, signals: seq<Signal>)
    requires |signals| == |bars|
    ensures var r := Outcome(s, starting, leverage, bars, signals);
            Sound(r) && r.pending.None? && r.account.reserved == 0.0 && Marked(r, starting, bars)
  {
    hide Balanced, Bars, ForceClose;
    BeginIsSound(starting, leverage);
    BarsAreSound(s, Begin(starting, leverage), bars, signals);
    BarsAreMarked(s, starting, leverage, bars, signals);
    var run := Bars(s, Begin(starting, leverage), bars, signals);
    CancelKeepsSound(run);
    ForceCloseKeepsSound(s, CancelPending(run), bars);
    ForceCloseKeepsMarked(s, CancelPending(run), starting, bars);
  }

  /** For every signal sequence, every cost model and every series of closes, the equity curve and
      the trade list differ by exactly what the position still held is worth above its cost. */
  lemma {:induction false} EquityMatchesTrades(s: Setup, starting: real, leverage: real, bars: seq<Bar>, signals: seq<Signal>)
    requires |signals| == |bars|
    ensures var a := Outcome(s, starting, leverage, bars, signals).account;
            && a.starting == starting && a.reserved == 0.0
            && TotalPnl(a) == SumNet(a.trades) +
                 (if bars == [] || !a.position.IsOpen() then 0.0
                  else a.position.Unrealized(bars[|bars| - 1].close) - a.position.entryCost)
            && SumNet(a.trades) == SumGross(a.trades) - SumCosts(a.trades)
  {
    hide Outcome;
    ResultIsSound(s, starting, leverage, bars, signals);
    var a := Outcome(s, starting, leverage, bars, signals).account;
    if bars != [] && a.position.IsOpen() {
      var close := bars[|bars| - 1].close;
      assert (close - a.position.average) * a.position.quantity
             == a.position.quantity * close - a.position.average * a.position.quantity;
    }
  }

  /** With a forced close and a positive last close, total P&L is the sum of the trades' net P&L,
      and that is gross P&L minus all brokerage paid. */
  lemma {:induction false} BacktestBooksBalance(s: Setup, starting: real, leverage: real, bars: seq<Bar>, signals: seq<Signal>)
    requires |signals| == |bars| && s.forceClose
    requires bars != [] ==> bars[|bars| - 1].close > 0.0
    ensures var a := Outcome(s, starting, leverage, bars, signals).account;
            && !a.position.IsOpen()
            && TotalPnl(a) == SumNet(a.trades)
            && SumNet(a.trades) == SumGross(a.trades) - a.brokerage
            && a.cash == starting + SumNet(a.trades)
  {
    hide Bars, ForceClose;
    EquityMatchesTrades(s, starting, leverage, bars, signals);
    ResultIsSound(s, starting, leverage, bars, signals);
    if bars != [] {
      ForceCloseFlattens(s, CancelPending(Bars(s, Begin(starting, leverage), bars, signals)), bars);
    }
  }

  /** At every brick of every run: cash is starting capital plus realised net P&L minus what the
      open position cost, and the reservation is exactly the pending buy's. */
  lemma {:induction false} BooksBalanceAtEveryBrick(s: Setup, starting: real, leverage: real, bars: seq<Bar>,
                                                    signals: seq<Signal>, n: nat)
    requires |signals| == |bars| && n <= |bars|
    ensures var p := Bars(s, Begin(starting, leverage), bars[..n], signals[..n]);
            && p.account.cash == starting + SumNet(p.account.trades) - p.account.position.Invested()
            && p.account.position.realized == SumNet(p.account.trades)
            && p.account.reserved == Earmarked(p.pending)
  {
    hide Bars;
    BeginIsSound(starting, leverage);
    BarsAreSound(s, Begin(starting, leverage), bars[..n], signals[..n]);
    BarsAreMarked(s, starting, leverage, bars[..n], signals[..n]);
  }
}
