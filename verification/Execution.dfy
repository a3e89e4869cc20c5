/** Orders, fills, costs and the simulated executor. */
module Execution {
  import opened Common

  datatype Side = Buy | Sell
  datatype Intent = Entry | Exit
  datatype Status = Created | Pending | Filled | Rejected | Cancelled

  datatype Fill = Fill(price: real, quantity: real, cost: real, reference: real, side: Side,
                       timestamp: int, fillId: Option<string>)
  {
    /** What the fill price lost against the reference. */
    function Slippage(): real {
      Abs(price - reference) * Abs(quantity)
    }

    function Notional(): real {
      price * quantity
    }
  }

  datatype Order = Order(id: int, side: Side, intent: Intent, quantity: real, reference: real, createdAt: int,
                         status: Status, fill: Option<Fill>, reserved: real, brokerId: Option<string>)
  {
    function Submitted(): Order { this.(status := Pending) }

    function Completed(f: Fill): Order { this.(status := Filled, fill := Some(f)) }

    function Refused(): Order { this.(status := Rejected) }

    function Withdrawn(): Order { this.(status := Cancelled) }

    predicate Terminal() { status.Filled? || status.Rejected? || status.Cancelled? }
  }

  function NewOrder(id: int, side: Side, intent: Intent, quantity: real, reference: real, at: int): Order {
    Order(id, side, intent, quantity, reference, at, Created, None, 0.0, None)
  }

  datatype SlippageModel = ZeroSlippage | FixedSlippage(amount: real) | PercentageSlippage(rate: real)

  function Adjust(m: SlippageModel, price: real, side: Side): real {
    match m
    case ZeroSlippage => price
    case FixedSlippage(amount) => if side.Buy? then price + amount else price - amount
    case PercentageSlippage(rate) => if side.Buy? then price * (1.0 + rate) else price * (1.0 - rate)
  }

  datatype BrokerageModel =
    ZeroBrokerage | FixedBrokerage(amount: real) | PercentageBrokerage(rate: real) | PerShareBrokerage(perShare: real)

  function Cost(m: BrokerageModel, quantity: real, price: real): real {
    match m
    case ZeroBrokerage => 0.0
    case FixedBrokerage(amount) => amount
    case PercentageBrokerage(rate) => Abs(quantity) * Abs(price) * rate
    case PerShareBrokerage(perShare) => Abs(quantity) * perShare
  }

  /** The executor's cost models; `latency` is what a paper venue adds to the fill time. */
  datatype Executor = Executor(slippage: SlippageModel, brokerage: BrokerageModel, latency: int)

  /** Reject without a positive reference price, else fill in full at the adjusted price. */
  function Execute(x: Executor, order: Order, reference: real, timestamp: int): Order {
    var submitted := order.Submitted();
    if reference <= 0.0 then submitted.Refused()
    else
      var price := Adjust(x.slippage, reference, order.side);
      submitted.Completed(Fill(price, order.quantity, Cost(x.brokerage, order.quantity, price), reference,
                               order.side, timestamp + x.latency, None))
  }

  /** Executing an order fills it in full at a positive reference price and rejects it otherwise;
      nothing else about the order changes, and the fill never beats the reference. */
  lemma ExecuteFacts(x: Executor, order: Order, reference: real, timestamp: int)
    requires order.fill.None?
    requires match x.slippage
             case ZeroSlippage => true
             case FixedSlippage(amount) => amount >= 0.0
             case PercentageSlippage(rate) => rate >= 0.0
    ensures var r := Execute(x, order, reference, timestamp);
            && r == order.(status := r.status, fill := r.fill)
            && (reference <= 0.0 ==> r.status == Rejected && r.fill.None?)
            && (reference > 0.0 ==>
                && r.status == Filled && r.fill.Some?
                && r.fill.value.quantity == order.quantity && r.fill.value.side == order.side
                && r.fill.value.reference == reference
                && (order.side.Buy? ==> r.fill.value.price >= reference)
                && (order.side.Sell? ==> r.fill.value.price <= reference))
  {
    if x.slippage.PercentageSlippage? && reference > 0.0 {
      MulMonotone(0.0, x.slippage.rate, reference);
    }
  }

  /** What the models add to or take off a reference price, and what they charge on the notional or the
      quantity filled. */
  lemma FillIsPriced(x: Executor, order: Order, reference: real, timestamp: int)
    requires order.fill.None? && reference > 0.0
    ensures Execute(x, order, reference, timestamp).fill.Some?
    ensures var f := Execute(x, order, reference, timestamp).fill.value;
            var away := if order.side.Buy? then f.price - reference else reference - f.price;
            && f.timestamp == timestamp + x.latency && f.fillId.None?
            && (match x.slippage
                case ZeroSlippage => away == 0.0
                case FixedSlippage(amount) => away == amount
                case PercentageSlippage(rate) => away == rate * reference)
            && (match x.brokerage
                case ZeroBrokerage => f.cost == 0.0
                case FixedBrokerage(amount) => f.cost == amount
                case PercentageBrokerage(rate) => f.cost == rate * Abs(f.price * order.quantity)
                case PerShareBrokerage(perShare) => f.cost == perShare * Abs(order.quantity))
  {
    var price := Adjust(x.slippage, reference, order.side);
    AbsOfProduct(order.quantity, price);
    match x.slippage {
      case PercentageSlippage(rate) =>
        assert reference * (1.0 + rate) == reference + rate * reference;
        assert reference * (1.0 - rate) == reference - rate * reference;
      case _ =>
    }
  }

  lemma AbsOfProduct(x: real, y: real)
    ensures Abs(x) * Abs(y) == Abs(y * x)
  {
    if x >= 0.0 && y >= 0.0 {
      MulMonotone(0.0, x, y);
    } else if x < 0.0 && y < 0.0 {
      MulStrict(x, 0.0, -y);
      assert x * -y == -(x * y);
    } else if x < 0.0 {
      MulMonotone(x, 0.0, y);
    } else {
      MulMonotone(y, 0.0, x);
    }
  }
}
