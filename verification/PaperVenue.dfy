/** The paper exchange: market queue, resting limit and stop orders, matching against quotes. */
module PaperVenue {
  import opened Common
  import opened Execution
  import opened Ledger

  datatype OrderType = Market | Limit | Stop
  datatype TimeInForce = GTC | IOC

  datatype Quote = Quote(timestamp: int, price: real, high: real, low: real)

  datatype Ticket = Ticket(order: Order, kind: OrderType, life: TimeInForce, limit: Option<real>, stop: Option<real>)

  /** What building a ticket checks. */
  predicate WellPriced(kind: OrderType, limit: Option<real>, stop: Option<real>) {
    && (kind.Limit? ==> limit.Some?)
    && (kind.Stop? ==> stop.Some?)
    && (limit.Some? ==> limit.value > 0.0)
    && (stop.Some? ==> stop.value > 0.0)
  }

  /** A well-formed ticket for an order that has not executed; only buys hold capital. */
  predicate IsTicket(t: Ticket) {
    && WellPriced(t.kind, t.limit, t.stop)
    && t.order.quantity > 0.0 && t.order.fill.None?
    && t.order.reserved >= 0.0 && (t.order.side.Sell? ==> t.order.reserved == 0.0)
  }

  const SAMPLE := Ticket(NewOrder(1, Buy, Entry, 1.0, 1.0, 0), Market, GTC, None, None)

  type OrderTicket = t: Ticket | IsTicket(t) witness SAMPLE

  datatype Kind = AcceptedEvent | TriggeredEvent | FilledEvent | RejectedEvent | CancelledEvent

  /** One reported transition; only matching reports a reference price. */
  datatype Event = Event(kind: Kind, order: Order, reference: Option<real>)

  datatype Venue = Venue(account: Account, queue: seq<OrderTicket>, resting: seq<OrderTicket>, lastId: nat,
                         sequence: int, quote: Option<Quote>)

  function OpenVenue(account: Account): Venue {
    Venue(account, [], [], 0, -1, None)
  }

  // ---- triggers -------------------------------------------------------------------

  /** The price a resting ticket triggers at on this quote, if it does. */
  function TriggerReference(t: OrderTicket, q: Quote): Option<real> {
    match t.kind
    case Limit =>
      if t.order.side.Buy? && q.low <= t.limit.value then t.limit
      else if t.order.side.Sell? && q.high >= t.limit.value then t.limit
      else None
    case Stop =>
      if t.order.side.Buy? && q.high >= t.stop.value then t.stop
      else if t.order.side.Sell? && q.low <= t.stop.value then t.stop
      else None
    case Market => None
  }

  /** The ways the venue sorts its tickets. */
  datatype Rule = Triggered(q: Quote) | Immediate | HasId(id: int)

  predicate Meets(t: OrderTicket, r: Rule) {
    match r
    case Triggered(q) => TriggerReference(t, q).Some?
    case Immediate => t.life.IOC?
    case HasId(id) => t.order.id == id
  }

  /** The tickets that meet the rule, or those that do not, in order. */
  function Select(ts: seq<OrderTicket>, r: Rule, wanted: bool): seq<OrderTicket> {
    if ts == [] then []
    else Select(ts[..|ts| - 1], r, wanted) + if Meets(ts[|ts| - 1], r) == wanted then [ts[|ts| - 1]] else []
  }

  // ---- order entry ------------------------------------------------------------------

  datatype Request = Request(side: Side, intent: Intent, quantity: real, kind: OrderType, life: TimeInForce,
                             limit: Option<real>, stop: Option<real>, at: int)

  datatype Entry = Reported(event: Event) | Raised

  function Estimate(v: Venue, r: Request): real {
    if r.kind.Limit? && r.limit.Some? then r.limit.value
    else if r.kind.Stop? && r.stop.Some? then r.stop.value
    else if v.quote.Some? then v.quote.value.price
    else 0.0
  }

  function Holding(v: Venue, r: Request): real {
    if r.side.Buy? && Estimate(v, r) > 0.0 then Worth(Estimate(v, r), r.quantity) else 0.0
  }

  function OrderFor(v: Venue, r: Request): Order {
    NewOrder(v.lastId + 1, r.side, r.intent, r.quantity, Estimate(v, r), r.at)
  }

  function TicketFor(v: Venue, r: Request): OrderTicket
    requires r.quantity > 0.0 && WellPriced(r.kind, r.limit, r.stop)
  {
    Ticket(OrderFor(v, r).(reserved := Holding(v, r)), r.kind, r.life, r.limit, r.stop)
  }

  predicate Accepts(r: Request) {
    r.quantity > 0.0 && WellPriced(r.kind, r.limit, r.stop)
  }

  /** An id is used up whatever becomes of the request. */
  function Submit(v: Venue, r: Request): (Venue, Entry) {
    var used := v.(lastId := v.lastId + 1);
    if r.quantity <= 0.0 then (used, Reported(Event(RejectedEvent, OrderFor(v, r).Refused(), None)))
    else if !WellPriced(r.kind, r.limit, r.stop) then (used, Raised)
    else
      var t := TicketFor(v, r);
      var held := if r.side.Buy? && Estimate(v, r) > 0.0 then Reserve(v.account, Holding(v, r)) else v.account;
      var entered := used.(account := RecordOrder(held, t.order));
      (if t.kind.Market? then entered.(queue := v.queue + [t]) else entered.(resting := v.resting + [t]),
       Reported(Event(AcceptedEvent, t.order, None)))
  }

  // ---- cancellation ------------------------------------------------------------------

  function Find(ts: seq<OrderTicket>, id: int): Option<OrderTicket> {
    if ts == [] then None
    else if ts[|ts| - 1].order.id == id then Some(ts[|ts| - 1])
    else Find(ts[..|ts| - 1], id)
  }

  function Freed(a: Account, t: OrderTicket): Account {
    if t.order.side.Buy? then Release(a, t.order.reserved) else a
  }

  function Cancellation(t: OrderTicket): Event {
    Event(CancelledEvent, t.order.Withdrawn(), None)
  }

  function Cancel(v: Venue, id: int): (Venue, Option<Event>) {
    match Find(v.queue, id)
    case Some(t) =>
      (v.(account := Freed(v.account, t), queue := Select(v.queue, HasId(id), false)), Some(Cancellation(t)))
    case None =>
      match Find(v.resting, id)
      case Some(t) =>
        (v.(account := Freed(v.account, t), resting := Select(v.resting, HasId(id), false)), Some(Cancellation(t)))
      case None => (v, None)
  }

  // ---- market data --------------------------------------------------------------------

  predicate Fillable(t: OrderTicket, q: Quote) {
    t.kind.Market? || TriggerReference(t, q).Some?
  }

  function Price(t: OrderTicket, q: Quote): real
    requires Fillable(t, q)
  {
    if t.kind.Market? then q.price else TriggerReference(t, q).value
  }

  /** Execute one matched ticket and settle it with the portfolio. */
  function Settle(x: Executor, a: Account, bar: int, t: OrderTicket, price: real, at: int): (Account, Event) {
    var applied := ApplyOrder(a, Execute(x, t.order, price, at), bar);
    (applied.account,
     Event(if applied.order.status.Filled? then FilledEvent else RejectedEvent, applied.order, Some(price)))
  }

  predicate AllFillable(ts: seq<OrderTicket>, q: Quote) {
    forall i | 0 <= i < |ts| :: Fillable(ts[i], q)
  }

  function SettleAll(x: Executor, a: Account, bar: int, ts: seq<OrderTicket>, q: Quote): Account
    requires AllFillable(ts, q)
  {
    if ts == [] then a
    else
      var t := ts[|ts| - 1];
      Settle(x, SettleAll(x, a, bar, ts[..|ts| - 1], q), bar, t, Price(t, q), q.timestamp).0
  }

  /** A resting ticket reports its trigger before its fill. */
  function SettleEvents(x: Executor, a: Account, bar: int, ts: seq<OrderTicket>, q: Quote): seq<Event>
    requires AllFillable(ts, q)
  {
    if ts == [] then []
    else
      var prefix := ts[..|ts| - 1];
      var t := ts[|ts| - 1];
      var price := Price(t, q);
      SettleEvents(x, a, bar, prefix, q)
      + (if t.kind.Market? then [] else [Event(TriggeredEvent, t.order, Some(price))])
      + [Settle(x, SettleAll(x, a, bar, prefix, q), bar, t, price, q.timestamp).1]
  }

  function FreeAll(a: Account, ts: seq<OrderTicket>): Account {
    if ts == [] then a else Freed(FreeAll(a, ts[..|ts| - 1]), ts[|ts| - 1])
  }

  function CancelEvents(ts: seq<OrderTicket>): seq<Event> {
    if ts == [] then [] else CancelEvents(ts[..|ts| - 1]) + [Cancellation(ts[|ts| - 1])]
  }

  /** The queue holds market orders only. */
  predicate QueueIsMarket(v: Venue) {
    forall i | 0 <= i < |v.queue| :: v.queue[i].kind.Market?
  }

  lemma {:induction false} SelectedMeet(ts: seq<OrderTicket>, r: Rule, wanted: bool)
    ensures forall i | 0 <= i < |Select(ts, r, wanted)| :: Meets(Select(ts, r, wanted)[i], r) == wanted
    ensures forall t :: t in Select(ts, r, wanted) <==> t in ts && Meets(t, r) == wanted
  {
    hide Meets;
    if ts != [] {
      SelectedMeet(ts[..|ts| - 1], r, wanted);
      assert ts == ts[..|ts| - 1] + [ts[|ts| - 1]];
    } else {
      assert Select(ts, r, wanted) == [];
    }
  }

  /** What one quote matches: the queue, then the resting tickets it triggers. */
  function Matched(v: Venue, q: Quote): (r: seq<OrderTicket>)
    requires QueueIsMarket(v)
    ensures AllFillable(r, q)
  {
    SelectedMeet(v.resting, Triggered(q), true);
    v.queue + Select(v.resting, Triggered(q), true)
  }

  function Unmatched(v: Venue, q: Quote): seq<OrderTicket> {
    Select(v.resting, Triggered(q), false)
  }

  function OnQuote(x: Executor, v: Venue, q: Quote): (Venue, seq<Event>)
    requires QueueIsMarket(v)
  {
    var settled := SettleAll(x, v.account, v.sequence + 1, Matched(v, q), q);
    var expired := Select(Unmatched(v, q), Immediate, true);
    (Venue(Mark(FreeAll(settled, expired), q.timestamp, q.price), [], Select(Unmatched(v, q), Immediate, false),
           v.lastId, v.sequence + 1, Some(q)),
     SettleEvents(x, v.account, v.sequence + 1, Matched(v, q), q) + CancelEvents(expired))
  }

  // ---- runs -----------------------------------------------------------------------------

  datatype Op = Enter(r: Request) | Withdraw(id: int) | Tick(q: Quote)

  function Step(x: Executor, v: Venue, op: Op): (Venue, seq<Event>)
    requires QueueIsMarket(v)
  {
    match op
    case Enter(r) =>
      var (after, entry) := Submit(v, r);
      (after, if entry.Reported? then [entry.event] else [])
    case Withdraw(id) =>
      var (after, event) := Cancel(v, id);
      (after, if event.Some? then [event.value] else [])
    case Tick(q) => OnQuote(x, v, q)
  }

  lemma StepKeepsQueueMarket(x: Executor, v: Venue, op: Op)
    requires QueueIsMarket(v)
    ensures QueueIsMarket(Step(x, v, op).0)
  {
    hide SettleAll, SettleEvents, FreeAll, CancelEvents;
    if op.Withdraw? {
      SelectedMeet(v.queue, HasId(op.id), false);
      var after := Cancel(v, op.id).0;
      forall i | 0 <= i < |after.queue| ensures after.queue[i].kind.Market? {
        assert after.queue[i] in after.queue;
      }
    }
  }

  function Run(x: Executor, v: Venue, ops: seq<Op>): (r: (Venue, seq<Event>))
    requires QueueIsMarket(v)
    ensures QueueIsMarket(r.0)
  {
    if ops == [] then (v, [])
    else
      var (before, events) := Run(x, v, ops[..|ops| - 1]);
      StepKeepsQueueMarket(x, before, ops[|ops| - 1]);
      var (after, more) := Step(x, before, ops[|ops| - 1]);
      (after, events + more)
  }
}
