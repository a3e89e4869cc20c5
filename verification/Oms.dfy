/** The order management system: the life of an order under an arbitrary executor and broker. */
module Oms {
  import opened Common
  import opened Execution

  datatype SignalType = SignalBuy | SignalSell | SignalExit | SignalHold

  /** What a strategy knows when it signals. */
  datatype Context = Context(symbol: string, cash: Option<real>, held: real)

  datatype Config = Config(maxPositionSize: real, allowed: Option<set<string>>, requireRisk: bool, hasBroker: bool)

  datatype RiskDecision = RiskDecision(orderId: int, passed: bool)

  /** The id a broker knows an order by. */
  datatype BrokerRef = Unknown | Theirs(text: string) | Ours(id: int)

  datatype SyncDecision = SyncDecision(orderId: int, brokerId: BrokerRef, previous: Status, current: Status, changed: bool)

  /** Whatever an executor may do to the order it is handed, and whether it, or recording its
      fill, raises afterwards. */
  datatype Outcome = Outcome(status: Status, fill: Option<Fill>, brokerId: Option<string>, raised: bool)

  datatype BrokerStatus = BrokerCreated | BrokerOpen | BrokerPartial | BrokerFilled | BrokerCancelled | BrokerRejected | BrokerExpired

  /** A broker answers with its id for the order and its status, or fails. */
  datatype Reply = Failed | Replied(brokerId: string, status: BrokerStatus)

  /** The system's books; `handed` is the trace of ids given to the executor. */
  datatype Desk = Desk(orders: map<int, Order>, lastId: nat, decisions: seq<RiskDecision>, handed: seq<int>,
                       syncs: seq<SyncDecision>)

  const EMPTY_DESK := Desk(map[], 0, [], [], [])

  // ---- signals -----------------------------------------------------------------------

  function EntryQuantity(cfg: Config, ctx: Context, price: real): real {
    if price <= 0.0 then 0.0 else ctx.cash.GetOr(0.0) * cfg.maxPositionSize / price
  }

  predicate Allowed(cfg: Config, ctx: Context) {
    cfg.allowed.Some? ==> ctx.symbol in cfg.allowed.value
  }

  /** The order a signal asks for, if any. */
  function OrderFor(cfg: Config, kind: SignalType, ctx: Context, price: real, id: int, at: int): Option<Order> {
    match kind
    case SignalHold => None
    case SignalBuy =>
      var quantity := EntryQuantity(cfg, ctx, price);
      if quantity <= 0.0 then None else Some(NewOrder(id, Buy, Entry, quantity, price, at))
    case _ => if ctx.held > 0.0 then Some(NewOrder(id, Sell, Exit, ctx.held, price, at)) else None
  }

  function Handled(order: Order, outcome: Outcome): Order {
    var done := order.(status := outcome.status, fill := outcome.fill, brokerId := outcome.brokerId);
    if outcome.raised then done.Refused() else done
  }

  function ProcessSignal(d: Desk, cfg: Config, kind: SignalType, ctx: Context, price: real, at: int, verdict: bool,
                         outcome: Outcome): (Desk, Option<int>)
  {
    var asked := if Allowed(cfg, ctx) then OrderFor(cfg, kind, ctx, price, d.lastId + 1, at) else None;
    if asked.None? then (d, None)
    else
      var order := asked.value;
      var passed := !cfg.requireRisk || verdict;
      var settled := if passed then Handled(order, outcome) else order.Refused();
      (d.(orders := d.orders[order.id := settled], lastId := d.lastId + 1,
          decisions := d.decisions + [RiskDecision(order.id, passed)],
          handed := d.handed + if passed then [order.id] else []),
       Some(order.id))
  }

  // ---- the broker --------------------------------------------------------------------

  predicate Working(order: Order) {
    order.status.Created? || order.status.Pending?
  }

  function ApplyBrokerState(order: Order, brokerId: string, status: BrokerStatus): Order {
    var known := order.(brokerId := Some(brokerId));
    match status
    case BrokerOpen => known.Submitted()
    case BrokerPartial => known.Submitted()
    case BrokerCancelled => known.Withdrawn()
    case BrokerRejected => known.Refused()
    case BrokerExpired => known.Refused()
    case BrokerCreated => known
    case BrokerFilled => known
  }

  predicate Placed(order: Order) {
    order.brokerId.Some? && order.brokerId.value != ""
  }

  function KnownAs(order: Order): BrokerRef {
    if order.brokerId.Some? then Theirs(order.brokerId.value) else Unknown
  }

  function Compared(before: Order, after: Order, brokerId: BrokerRef): SyncDecision {
    SyncDecision(before.id, brokerId, before.status, after.status, before.status != after.status)
  }

  /** An order the broker never saw, or that the broker fails to report, stays as it is. */
  function Synchronized(order: Order, reply: Reply): Order {
    if !Placed(order) || reply.Failed? then order else ApplyBrokerState(order, reply.brokerId, reply.status)
  }

  /** The broker's answer is applied; afterwards the order is cancelled here whatever it was. */
  function CancelledBy(order: Order, reply: Reply): Order {
    if reply.Failed? then order else ApplyBrokerState(order, reply.brokerId, reply.status)
  }

  /** The broker is asked to cancel under its own id for the order, else under ours. */
  function CancelId(order: Order): BrokerRef {
    if Placed(order) then Theirs(order.brokerId.value) else Ours(order.id)
  }

  function CancelOrder(d: Desk, cfg: Config, id: int, reply: Reply): (Desk, bool) {
    if id !in d.orders || !Working(d.orders[id]) then (d, false)
    else
      var order := d.orders[id];
      if !cfg.hasBroker then (d.(orders := d.orders[id := order.Withdrawn()]), true)
      else
        var told := CancelledBy(order, reply);
        (d.(orders := d.orders[id := told.Withdrawn()], syncs := d.syncs + [Compared(order, told, CancelId(order))]), true)
  }

  datatype Modified = Done(ok: bool) | Raises

  /** With a broker the parameters are checked one after the other, and a bad price raises after
      the quantity has been changed; without one they are taken as they are. */
  function ModifyOrder(d: Desk, cfg: Config, id: int, quantity: Option<real>, reference: Option<real>): (Desk, Modified) {
    if id !in d.orders || !Working(d.orders[id]) then (d, Done(false))
    else
      var order := d.orders[id];
      if cfg.hasBroker && quantity.Some? && quantity.value <= 0.0 then (d, Raises)
      else
        var sized := order.(quantity := quantity.GetOr(order.quantity));
        if cfg.hasBroker && reference.Some? && reference.value <= 0.0 then (d.(orders := d.orders[id := sized]), Raises)
        else
          var priced := sized.(reference := reference.GetOr(order.reference));
          (d.(orders := d.orders[id := priced],
              syncs := if cfg.hasBroker then d.syncs + [Compared(order, priced, KnownAs(order))] else d.syncs),
           Done(true))
  }

  /** The orders that are not terminal, by id. */
  function ActiveIds(orders: map<int, Order>, n: nat): (ids: seq<int>)
    ensures forall i | 0 <= i < |ids| :: 1 <= ids[i] <= n && ids[i] in orders && !orders[ids[i]].Terminal()
  {
    if n == 0 then []
    else ActiveIds(orders, n - 1) + if n in orders && !orders[n].Terminal() then [n] else []
  }

  function SyncOne(d: Desk, id: int, reply: Reply): Desk
    requires id in d.orders
  {
    var order := d.orders[id];
    var after := Synchronized(order, reply);
    d.(orders := d.orders[id := after],
       syncs := d.syncs + [Compared(order, after, if Placed(order) then KnownAs(order) else Unknown)])
  }

  function SyncIds(d: Desk, ids: seq<int>, replies: int -> Reply): (r: Desk)
    requires forall i | 0 <= i < |ids| :: ids[i] in d.orders
    ensures r.orders.Keys == d.orders.Keys
  {
    if ids == [] then d
    else SyncOne(SyncIds(d, ids[..|ids| - 1], replies), ids[|ids| - 1], replies(ids[|ids| - 1]))
  }

  function SynchronizeOrders(d: Desk, cfg: Config, replies: int -> Reply): Desk {
    if !cfg.hasBroker then d else SyncIds(d, ActiveIds(d.orders, d.lastId), replies)
  }

  // ---- runs ---------------------------------------------------------------------------

  datatype Op =
    Signal(kind: SignalType, ctx: Context, price: real, at: int, verdict: bool, outcome: Outcome)
  | Cancel(id: int, reply: Reply)
  | Modify(id: int, quantity: Option<real>, reference: Option<real>)
  | Synchronize(replies: int -> Reply)

  function Step(cfg: Config, d: Desk, op: Op): Desk {
    match op
    case Signal(kind, ctx, price, at, verdict, outcome) => ProcessSignal(d, cfg, kind, ctx, price, at, verdict, outcome).0
    case Cancel(id, reply) => CancelOrder(d, cfg, id, reply).0
    case Modify(id, quantity, reference) => ModifyOrder(d, cfg, id, quantity, reference).0
    case Synchronize(replies) => SynchronizeOrders(d, cfg, replies)
  }

  function Run(cfg: Config, d: Desk, ops: seq<Op>): Desk {
    if ops == [] then d else Step(cfg, Run(cfg, d, ops[..|ops| - 1]), ops[|ops| - 1])
  }

  // ---- safety --------------------------------------------------------------------------

  function PassedIds(ds: seq<RiskDecision>): seq<int> {
    if ds == [] then [] else PassedIds(ds[..|ds| - 1]) + if ds[|ds| - 1].passed then [ds[|ds| - 1].orderId] else []
  }

  /** Ids are 1..n and match their keys; there is one decision per order, in order; the executor was
      handed exactly the orders whose decision passed, once each and in order; and an order whose
      decision failed is rejected. */
  ghost predicate Orderly(d: Desk) {
    && (forall id :: id in d.orders <==> 1 <= id <= d.lastId)
    && (forall id | id in d.orders :: d.orders[id].id == id)
    && |d.decisions| == d.lastId
    && (forall i | 0 <= i < |d.decisions| :: d.decisions[i].orderId == i + 1)
    && d.handed == PassedIds(d.decisions)
    && (forall i | 0 <= i < |d.decisions| :: !d.decisions[i].passed ==> d.orders[i + 1].status.Rejected?)
  }

  /** What no call may do to an order: change which order it is, or touch it once it is terminal. */
  predicate Preserves(before: Order, after: Order) {
    && after.id == before.id && after.side == before.side && after.intent == before.intent && after.createdAt == before.createdAt
    && (before.Terminal() ==> after == before)
  }

  ghost predicate AllPreserved(d: Desk, e: Desk) {
    forall id | id in d.orders :: id in e.orders && Preserves(d.orders[id], e.orders[id])
  }

  lemma SignalIsSafe(d: Desk, cfg: Config, kind: SignalType, ctx: Context, price: real, at: int, verdict: bool, outcome: Outcome)
    requires Orderly(d)
    ensures var e := ProcessSignal(d, cfg, kind, ctx, price, at, verdict, outcome).0; Orderly(e) && AllPreserved(d, e)
  {
    hide EntryQuantity, Allowed, Orderly, AllPreserved;
    var asked := if Allowed(cfg, ctx) then OrderFor(cfg, kind, ctx, price, d.lastId + 1, at) else None;
    if asked.Some? {
      var passed := !cfg.requireRisk || verdict;
      NewOrderIsSafe(d, if passed then Handled(asked.value, outcome) else asked.value.Refused(), passed);
    } else {
      NothingChanged(d);
    }
  }

  lemma {:induction false} NewOrderIsSafe(d: Desk, order: Order, passed: bool)
    requires Orderly(d) && order.id == d.lastId + 1 && (!passed ==> order.status.Rejected?)
    ensures var e := d.(orders := d.orders[order.id := order], lastId := d.lastId + 1,
                        decisions := d.decisions + [RiskDecision(order.id, passed)],
                        handed := d.handed + if passed then [order.id] else []);
            Orderly(e) && AllPreserved(d, e)
  {
    hide PassedIds;
    PassedIdsOfOne(d.decisions, RiskDecision(order.id, passed));
  }

  lemma {:induction false} PassedIdsOfOne(ds: seq<RiskDecision>, d: RiskDecision)
    ensures PassedIds(ds + [d]) == PassedIds(ds) + if d.passed then [d.orderId] else []
  {
    assert (ds + [d])[..|ds|] == ds;
  }

  lemma {:induction false} ReplacedOrderIsSafe(d: Desk, id: int, order: Order, syncs: seq<SyncDecision>)
    requires Orderly(d) && id in d.orders && !d.orders[id].Terminal() && Preserves(d.orders[id], order)
    ensures var e := d.(orders := d.orders[id := order], syncs := syncs); Orderly(e) && AllPreserved(d, e)
  {
  }

  lemma CancelIsSafe(d: Desk, cfg: Config, id: int, reply: Reply)
    requires Orderly(d)
    ensures var e := CancelOrder(d, cfg, id, reply).0; Orderly(e) && AllPreserved(d, e)
  {
    hide Orderly, AllPreserved, CancelId;
    if id in d.orders && Working(d.orders[id]) {
      var told := CancelledBy(d.orders[id], reply);
      ReplacedOrderIsSafe(d, id, (if cfg.hasBroker then told else d.orders[id]).Withdrawn(), CancelOrder(d, cfg, id, reply).0.syncs);
    } else {
      NothingChanged(d);
    }
  }

  lemma NothingChanged(d: Desk)
    ensures AllPreserved(d, d)
  {
  }

  lemma ModifyIsSafe(d: Desk, cfg: Config, id: int, quantity: Option<real>, reference: Option<real>)
    requires Orderly(d)
    ensures var e := ModifyOrder(d, cfg, id, quantity, reference).0; Orderly(e) && AllPreserved(d, e)
    ensures forall k | k in d.orders :: var e := ModifyOrder(d, cfg, id, quantity, reference).0;
              k in e.orders && e.orders[k].status == d.orders[k].status
  {
    hide Orderly, AllPreserved;
    NothingChanged(d);
    var e := ModifyOrder(d, cfg, id, quantity, reference).0;
    if id in d.orders && Working(d.orders[id]) {
      ReplacedOrderIsSafe(d, id, e.orders[id], e.syncs);
      assert e.orders == d.orders[id := e.orders[id]];
    }
  }

  /** While orders are synchronized one by one, those not reached yet stay as they were. */
  lemma {:induction false} SyncIsSafe(d: Desk, ids: seq<int>, replies: int -> Reply)
    requires Orderly(d)
    requires forall i | 0 <= i < |ids| :: ids[i] in d.orders && !d.orders[ids[i]].Terminal()
    requires forall i, j | 0 <= i < j < |ids| :: ids[i] < ids[j]
    ensures var e := SyncIds(d, ids, replies);
            && Orderly(e) && AllPreserved(d, e) && e.lastId == d.lastId
            && (forall id | id in d.orders && id !in ids :: e.orders[id] == d.orders[id])
            && |e.syncs| == |d.syncs| + |ids|
  {
    hide Orderly, Synchronized;
    if ids == [] {
      NothingChanged(d);
    } else {
      var n := |ids| - 1;
      SyncIsSafe(d, ids[..n], replies);
      var before := SyncIds(d, ids[..n], replies);
      assert ids[n] !in ids[..n];
      var order := before.orders[ids[n]];
      SynchronizedPreserves(order, replies(ids[n]));
      ReplacedOrderIsSafe(before, ids[n], Synchronized(order, replies(ids[n])), SyncOne(before, ids[n], replies(ids[n])).syncs);
    }
  }

  lemma SynchronizedPreserves(order: Order, reply: Reply)
    requires !order.Terminal()
    ensures Preserves(order, Synchronized(order, reply))
  {
  }

  lemma {:induction false} ActiveIdsAscend(orders: map<int, Order>, n: nat)
    ensures forall i, j | 0 <= i < j < |ActiveIds(orders, n)| :: ActiveIds(orders, n)[i] < ActiveIds(orders, n)[j]
  {
    hide Order.Terminal;
    if n > 0 {
      ActiveIdsAscend(orders, n - 1);
      var shorter := ActiveIds(orders, n - 1);
      assert forall i | 0 <= i < |shorter| :: shorter[i] <= n - 1;
    }
  }

  lemma {:induction false} ActiveIdsAre(orders: map<int, Order>, n: nat, id: int)
    ensures id in ActiveIds(orders, n) <==> 1 <= id <= n && id in orders && !orders[id].Terminal()
  {
    hide Order.Terminal;
    if n > 0 {
      ActiveIdsAre(orders, n - 1, id);
    }
  }

  lemma StepIsSafe(cfg: Config, d: Desk, op: Op)
    requires Orderly(d)
    ensures Orderly(Step(cfg, d, op)) && AllPreserved(d, Step(cfg, d, op))
  {
    hide Orderly, AllPreserved, ProcessSignal, CancelOrder, ModifyOrder, SyncIds, ActiveIds;
    match op
    case Signal(kind, ctx, price, at, verdict, outcome) => SignalIsSafe(d, cfg, kind, ctx, price, at, verdict, outcome);
    case Cancel(id, reply) => CancelIsSafe(d, cfg, id, reply);
    case Modify(id, quantity, reference) => ModifyIsSafe(d, cfg, id, quantity, reference);
    case Synchronize(replies) =>
      NothingChanged(d);
      ActiveIdsAscend(d.orders, d.lastId);
      SyncIsSafe(d, ActiveIds(d.orders, d.lastId), replies);
  }

  /** Under any signals, risk verdicts, executor outcomes and broker replies the books stay orderly. */
  lemma {:induction false} RunsAreOrderly(cfg: Config, ops: seq<Op>)
    ensures Orderly(Run(cfg, EMPTY_DESK, ops))
  {
    hide Orderly, Step;
    if ops == [] {
      NothingYet();
    } else {
      RunsAreOrderly(cfg, ops[..|ops| - 1]);
      StepIsSafe(cfg, Run(cfg, EMPTY_DESK, ops[..|ops| - 1]), ops[|ops| - 1]);
    }
  }

  lemma NothingYet()
    ensures Orderly(EMPTY_DESK)
  {
  }

  /** A filled, rejected or cancelled order is never changed by any later call; and no call ever
      drops an order or changes which order it is. */
  lemma {:induction false} TerminalIsForever(cfg: Config, ops: seq<Op>, more: seq<Op>)
    ensures AllPreserved(Run(cfg, EMPTY_DESK, ops), Run(cfg, EMPTY_DESK, ops + more))
  {
    hide Step, Preserves;
    if more == [] {
      assert ops + more == ops;
      hide AllPreserved;
      NothingChanged(Run(cfg, EMPTY_DESK, ops));
    } else {
      var shorter := more[..|more| - 1];
      TerminalIsForever(cfg, ops, shorter);
      assert (ops + more)[..|ops + more| - 1] == ops + shorter;
      assert (ops + more)[|ops + more| - 1] == more[|more| - 1];
      RunsAreOrderly(cfg, ops + shorter);
      var d, e := Run(cfg, EMPTY_DESK, ops), Run(cfg, EMPTY_DESK, ops + shorter);
      StepIsSafe(cfg, e, more[|more| - 1]);
      var f := Step(cfg, e, more[|more| - 1]);
      forall id | id in d.orders ensures id in f.orders && Preserves(d.orders[id], f.orders[id]) {
        PreservesComposes(d.orders[id], e.orders[id], f.orders[id]);
      }
    }
  }

  lemma PreservesComposes(a: Order, b: Order, c: Order)
    requires Preserves(a, b) && Preserves(b, c)
    ensures Preserves(a, c)
  {
  }

  /** The executor sees an order exactly when its one decision passed. */
  lemma {:induction false} HandedIffPassed(cfg: Config, ops: seq<Op>, id: int)
    ensures var d := Run(cfg, EMPTY_DESK, ops);
            id in d.handed <==> 1 <= id <= d.lastId && |d.decisions| == d.lastId && d.decisions[id - 1] == RiskDecision(id, true)
  {
    hide Run;
    RunsAreOrderly(cfg, ops);
    var d := Run(cfg, EMPTY_DESK, ops);
    PassedIdsAre(d.decisions, id);
  }

  lemma {:induction false} PassedIdsAre(ds: seq<RiskDecision>, id: int)
    requires forall i | 0 <= i < |ds| :: ds[i].orderId == i + 1
    ensures id in PassedIds(ds) <==> 1 <= id <= |ds| && ds[id - 1].passed
  {
    if ds != [] {
      PassedIdsAre(ds[..|ds| - 1], id);
    }
  }

  /** A cancellation here wins over whatever the broker answers, even that it has filled the order; only
      the broker's id for it is taken over from an answer. What is recorded is what the broker told, under
      its own id for the order or, where it has none, ours. */
  lemma CancelAlwaysCancels(d: Desk, cfg: Config, id: int, reply: Reply)
    ensures var (after, ok) := CancelOrder(d, cfg, id, reply);
            && (ok <==> id in d.orders && !d.orders[id].Terminal())
            && (ok ==>
                  after.orders == d.orders[id := d.orders[id].(
                    status := Cancelled,
                    brokerId := if cfg.hasBroker && reply.Replied? then Some(reply.brokerId) else d.orders[id].brokerId)])
            && (ok && cfg.hasBroker ==>
                  var asked, own := d.orders[id].brokerId, d.orders[id].id;
                  var told := if reply.Failed? then d.orders[id].status else Reported(reply.status, d.orders[id].status);
                  after.syncs == d.syncs + [
                    SyncDecision(own, if asked.GetOr("") == "" then Ours(own) else Theirs(asked.value),
                                 d.orders[id].status, told, d.orders[id].status != told)])
            && (!ok ==> after == d)
  {
  }

  /** The status a broker's report stands for here: what it has opened or filled in part is pending, what
      it rejected or let expire is rejected, and what it has only created or has filled changes nothing. */
  function Reported(status: BrokerStatus, before: Status): Status {
    match status
    case BrokerOpen | BrokerPartial => Pending
    case BrokerCancelled => Cancelled
    case BrokerRejected | BrokerExpired => Rejected
    case BrokerCreated | BrokerFilled => before
  }

  /** Synchronizing gives each active order the status its own reply reports, and the broker's id; one the
      broker has no id of, or does not report, stays as it is. None is ever filled by it: an order the
      broker reports filled keeps the status it had. */
  lemma {:induction false} SynchronizeReports(d: Desk, cfg: Config, replies: int -> Reply, id: int)
    requires Orderly(d) && id in d.orders && cfg.hasBroker && !d.orders[id].Terminal()
    ensures var after, before, reply := SynchronizeOrders(d, cfg, replies), d.orders[id], replies(id);
            && id in after.orders && !after.orders[id].status.Filled?
            && after.orders[id] ==
                 if before.brokerId.None? || before.brokerId.value == "" || reply.Failed? then before
                 else before.(status := Reported(reply.status, before.status), brokerId := Some(reply.brokerId))
  {
    hide Orderly, SyncIds, ActiveIds, Synchronized;
    var ids := ActiveIds(d.orders, d.lastId);
    ActiveIdsAscend(d.orders, d.lastId);
    ActiveIdsAre(d.orders, d.lastId, id);
    IdIsKnown(d, id);
    SyncReaches(d, ids, replies, id);
    NeverFilled(d.orders[id], replies(id));
    SynchronizedAsReported(d.orders[id], replies(id));
  }

  lemma SynchronizedAsReported(order: Order, reply: Reply)
    ensures Synchronized(order, reply) ==
            if order.brokerId.None? || order.brokerId.value == "" || reply.Failed? then order
            else order.(status := Reported(reply.status, order.status), brokerId := Some(reply.brokerId))
  {
  }

  lemma NeverFilled(order: Order, reply: Reply)
    requires !order.Terminal()
    ensures !Synchronized(order, reply).status.Filled?
  {
  }

  lemma IdIsKnown(d: Desk, id: int)
    requires Orderly(d) && id in d.orders
    ensures 1 <= id <= d.lastId
  {
  }

  lemma {:induction false} SyncReaches(d: Desk, ids: seq<int>, replies: int -> Reply, id: int)
    requires forall i | 0 <= i < |ids| :: ids[i] in d.orders
    requires forall i, j | 0 <= i < j < |ids| :: ids[i] < ids[j]
    requires id in d.orders
    ensures SyncIds(d, ids, replies).orders[id] == if id in ids then Synchronized(d.orders[id], replies(id)) else d.orders[id]
  {
    hide Synchronized;
    if ids != [] {
      SyncReaches(d, ids[..|ids| - 1], replies, id);
      assert ids == ids[..|ids| - 1] + [ids[|ids| - 1]];
    }
  }

  /** A signal for a symbol that is not allowed, or that asks for no order, changes nothing. Any other gets
      the next id: what failed the check is rejected unseen, and what passed is as the executor left it, or
      rejected where that raised. */
  lemma SignalFate(d: Desk, cfg: Config, kind: SignalType, ctx: Context, price: real, at: int, verdict: bool, outcome: Outcome)
    ensures var (e, given) := ProcessSignal(d, cfg, kind, ctx, price, at, verdict, outcome);
            var id := d.lastId + 1;
            var asked := OrderFor(cfg, kind, ctx, price, id, at);
            if (cfg.allowed.Some? && ctx.symbol !in cfg.allowed.value) || asked.None? then e == d && given.None?
            else
              var order := asked.value;
              && given == Some(id) && e.lastId == id && order.id == id && e.syncs == d.syncs
              && e.orders == d.orders[id := e.orders[id]]
              && if cfg.requireRisk && !verdict then e.orders[id] == order.(status := Rejected) && e.handed == d.handed
                 else
                   && e.handed == d.handed + [id]
                   && e.orders[id] == order.(status := if outcome.raised then Rejected else outcome.status,
                                             fill := outcome.fill, brokerId := outcome.brokerId)
  {
    hide EntryQuantity;
  }

  /** A modification of an unknown or terminal order is refused. With a broker a quantity that is not positive
      raises before anything has changed and a price that is not positive raises after the quantity has;
      every other takes both, and a broker's desk records that no status has changed. */
  lemma ModifyFate(d: Desk, cfg: Config, id: int, quantity: Option<real>, reference: Option<real>)
    ensures var (e, r) := ModifyOrder(d, cfg, id, quantity, reference);
            if id !in d.orders || d.orders[id].Terminal() then e == d && r == Done(false)
            else if cfg.hasBroker && quantity.GetOr(1.0) <= 0.0 then e == d && r == Raises
            else
              var order := d.orders[id];
              var sized := order.(quantity := if quantity.Some? then quantity.value else order.quantity);
              if cfg.hasBroker && reference.GetOr(1.0) <= 0.0 then r == Raises && e == d.(orders := d.orders[id := sized])
              else
                && r == Done(true)
                && e.orders == d.orders[id := sized.(reference := if reference.Some? then reference.value else order.reference)]
                && e.lastId == d.lastId && e.decisions == d.decisions && e.handed == d.handed
                && e.syncs == d.syncs +
                              if !cfg.hasBroker then []
                              else [SyncDecision(order.id, if order.brokerId.Some? then Theirs(order.brokerId.value) else Unknown,
                                                 order.status, order.status, false)]
  {
  }

  /** Reconciling records every active order once, by id, with the broker's id it was asked under, if it had
      one, and the status before and after. */
  lemma {:induction false} SyncRecords(d: Desk, ids: seq<int>, replies: int -> Reply, i: nat)
    requires forall k | 0 <= k < |ids| :: ids[k] in d.orders
    requires forall k, l | 0 <= k < l < |ids| :: ids[k] < ids[l]
    requires i < |ids|
    ensures var e, order := SyncIds(d, ids, replies), d.orders[ids[i]];
            && |e.syncs| == |d.syncs| + |ids| && e.syncs[..|d.syncs|] == d.syncs
            && e.syncs[|d.syncs| + i] ==
               SyncDecision(order.id, if order.brokerId.GetOr("") == "" then Unknown else Theirs(order.brokerId.value),
                            order.status, e.orders[ids[i]].status, order.status != e.orders[ids[i]].status)
  {
    hide Synchronized;
    var n := |ids| - 1;
    var last := ids[n];
    SyncReaches(d, ids, replies, ids[i]);
    SyncReaches(d, ids[..n], replies, last);
    if i < n {
      SyncRecords(d, ids[..n], replies, i);
      SyncReaches(d, ids[..n], replies, ids[i]);
      assert ids[..n][i] == ids[i];
    } else {
      SyncLength(d, ids[..n], replies);
      SynchronizedAsReported(d.orders[last], replies(last));
    }
  }

  lemma {:induction false} SyncLength(d: Desk, ids: seq<int>, replies: int -> Reply)
    requires forall k | 0 <= k < |ids| :: ids[k] in d.orders
    ensures |SyncIds(d, ids, replies).syncs| == |d.syncs| + |ids| && SyncIds(d, ids, replies).syncs[..|d.syncs|] == d.syncs
  {
    hide Synchronized;
    if ids != [] {
      SyncLength(d, ids[..|ids| - 1], replies);
    }
  }

  /** An entry is sized to spend the configured fraction of the cash; a non-positive price, no cash
      or a non-positive fraction asks for no order. */
  lemma EntrySpendsItsFraction(cfg: Config, ctx: Context, price: real, id: int, at: int)
    requires ctx.cash.Some? ==> ctx.cash.value >= 0.0
    ensures var asked := OrderFor(cfg, SignalBuy, ctx, price, id, at);
            && (asked.Some? <==> price > 0.0 && ctx.cash.GetOr(0.0) > 0.0 && cfg.maxPositionSize > 0.0)
            && (asked.Some? ==> asked.value.quantity * price == ctx.cash.GetOr(0.0) * cfg.maxPositionSize)
  {
    if price > 0.0 {
      Share(ctx.cash.GetOr(0.0), cfg.maxPositionSize, price, EntryQuantity(cfg, ctx, price));
    }
  }

  /** Any other signal but hold asks to sell what is held, if anything is, at the price. */
  lemma ExitSellsTheHolding(cfg: Config, kind: SignalType, ctx: Context, price: real, id: int, at: int)
    requires kind.SignalSell? || kind.SignalExit?
    ensures var asked := OrderFor(cfg, kind, ctx, price, id, at);
            && (asked.Some? <==> ctx.held > 0.0)
            && (asked.Some? ==> asked.value == Order(id, Sell, Exit, ctx.held, price, at, Created, None, 0.0, None))
    ensures OrderFor(cfg, SignalHold, ctx, price, id, at).None?
  {
  }

  lemma Share(cash: real, fraction: real, price: real, quantity: real)
    requires cash >= 0.0 && price > 0.0 && quantity == cash * fraction / price
    ensures quantity * price == cash * fraction
    ensures quantity > 0.0 <==> cash > 0.0 && fraction > 0.0
  {
    var spent := cash * fraction;
    Quotient(spent, price, quantity);
    if fraction > 0.0 {
      MulMonotone(0.0, cash, fraction);
    } else {
      MulMonotone(fraction, 0.0, cash);
    }
  }

  lemma Quotient(x: real, y: real, q: real)
    requires y > 0.0 && q == x / y
    ensures q * y == x && (q > 0.0 <==> x > 0.0)
  {
  }
}
