/** The order manager, the broker synchronizer and the OMS as objects. */
module OmsEngines {
  import opened Common
  import opened Execution
  import opened Oms

  class OrderManager {
    var orders: map<int, Order>
    var lastId: nat

    constructor ()
      ensures orders == map[] && lastId == 0
    {
      orders, lastId := map[], 0;
    }

    method CreateOrder(side: Side, intent: Intent, quantity: real, reference: real, at: int) returns (order: Order)
      modifies this
      ensures lastId == old(lastId) + 1
      ensures order == NewOrder(lastId, side, intent, quantity, reference, at)
      ensures orders == old(orders)[lastId := order]
    {
      lastId := lastId + 1;
      order := NewOrder(lastId, side, intent, quantity, reference, at);
      orders := orders[order.id := order];
    }

    /** The order is active from now on unless it is terminal; no other order's standing changes. */
    method UpdateOrder(order: Order)
      modifies this`orders
      ensures orders == old(orders)[order.id := order]
      ensures order.id in ActiveIds(orders, lastId) <==> 1 <= order.id <= lastId && !order.Terminal()
      ensures forall id | id != order.id :: id in ActiveIds(orders, lastId) <==> id in ActiveIds(old(orders), lastId)
    {
      hide Order.Terminal, ActiveIds;
      ghost var before := orders;
      orders := orders[order.id := order];
      ActiveIdsAre(orders, lastId, order.id);
      forall id | id != order.id ensures id in ActiveIds(orders, lastId) <==> id in ActiveIds(before, lastId) {
        ActiveIdsAre(orders, lastId, id);
        ActiveIdsAre(before, lastId, id);
      }
    }

    /** In order of creation. */
    method GetActiveOrders() returns (ids: seq<int>)
      ensures ids == ActiveIds(orders, lastId)
    {
      ids := [];
      for id := 1 to lastId + 1
        invariant ids == ActiveIds(orders, id - 1)
      {
        if id in orders && !(orders[id].status.Filled? || orders[id].status.Cancelled? || orders[id].status.Rejected?) {
          ids := ids + [id];
        }
      }
    }
  }

  class BrokerOrderSynchronizer {
    var decisions: seq<SyncDecision>

    constructor ()
      ensures decisions == []
    {
      decisions := [];
    }

    method SynchronizeOrder(order: Order, reply: Reply) returns (after: Order)
      modifies this
      ensures after == Synchronized(order, reply)
      ensures decisions == old(decisions) + [Compared(order, after, if Placed(order) then KnownAs(order) else Unknown)]
    {
      after := order;
      if order.brokerId.None? || order.brokerId.value == "" {
        decisions := decisions + [SyncDecision(order.id, Unknown, order.status, order.status, false)];
        return;
      }
      if reply.Replied? {
        after := ApplyBrokerState(order, reply.brokerId, reply.status);
      }
      decisions := decisions + [SyncDecision(order.id, Theirs(order.brokerId.value), order.status, after.status,
                                             order.status != after.status)];
    }

    method Cancel(order: Order, reply: Reply) returns (after: Order)
      modifies this
      ensures after == CancelledBy(order, reply)
      ensures decisions == old(decisions) + [Compared(order, after, CancelId(order))]
    {
      after := order;
      if reply.Replied? {
        after := ApplyBrokerState(order, reply.brokerId, reply.status);
        if reply.status.BrokerCancelled? {
          after := after.Withdrawn();
        }
      }
      decisions := decisions + [Compared(order, after, CancelId(order))];
    }

    /** Changes what it can before it raises. */
    method Modify(order: Order, quantity: Option<real>, reference: Option<real>) returns (after: Order, raised: bool)
      modifies this
      ensures raised <==> (quantity.Some? && quantity.value <= 0.0) || (reference.Some? && reference.value <= 0.0)
      ensures !raised ==> after == order.(quantity := quantity.GetOr(order.quantity), reference := reference.GetOr(order.reference))
      ensures raised ==> after == if quantity.Some? && quantity.value > 0.0 then order.(quantity := quantity.value) else order
      ensures decisions == if raised then old(decisions) else old(decisions) + [Compared(order, after, KnownAs(order))]
    {
      after, raised := order, false;
      if quantity.Some? {
        if quantity.value <= 0.0 {
          return order, true;
        }
        after := after.(quantity := quantity.value);
      }
      if reference.Some? {
        if reference.value <= 0.0 {
          return after, true;
        }
        after := after.(reference := reference.value);
      }
      decisions := decisions + [Compared(order, after, KnownAs(order))];
    }
  }

  class OMS {
    const config: Config
    const manager: OrderManager
    const synchronizer: BrokerOrderSynchronizer
    var decisions: seq<RiskDecision>
    ghost var handed: seq<int>

    ghost function View(): Desk
      reads this, manager, synchronizer
    {
      Desk(manager.orders, manager.lastId, decisions, handed, synchronizer.decisions)
    }

    constructor (config: Config)
      ensures this.config == config && fresh(manager) && fresh(synchronizer)
      ensures View() == EMPTY_DESK
    {
      this.config := config;
      var m := new OrderManager();
      var s := new BrokerOrderSynchronizer();
      manager, synchronizer, decisions, handed := m, s, [], [];
    }

    /** `verdict` and `outcome` are what the risk validator and the executor answer. */
    method ProcessSignal(kind: SignalType, ctx: Context, price: real, at: int, verdict: bool, outcome: Outcome)
      returns (id: Option<int>)
      modifies this, manager
      ensures (View(), id) == Oms.ProcessSignal(old(View()), config, kind, ctx, price, at, verdict, outcome)
    {
      hide EntryQuantity;
      if kind.SignalHold? {
        return None;
      }
      if config.allowed.Some? && ctx.symbol !in config.allowed.value {
        return None;
      }
      var created := SignalToOrder(kind, ctx, price, at);
      if created.None? {
        return None;
      }
      var order := created.value;
      id := Some(order.id);
      var passed := ValidateOrderRisk(order, verdict);
      if !passed {
        manager.UpdateOrder(order.Refused());
        assert manager.orders == old(manager.orders)[order.id := order.Refused()];
        assert handed == handed + [];
        return;
      }
      handed := handed + [order.id];
      var executed := order.(status := outcome.status, fill := outcome.fill, brokerId := outcome.brokerId);
      if outcome.raised {
        executed := executed.Refused();
      }
      manager.UpdateOrder(executed);
      assert manager.orders == old(manager.orders)[order.id := executed];
    }

    method ValidateOrderRisk(order: Order, verdict: bool) returns (passed: bool)
      modifies this`decisions
      ensures passed == (!config.requireRisk || verdict)
      ensures decisions == old(decisions) + [RiskDecision(order.id, passed)]
    {
      passed := if !config.requireRisk then true else verdict;
      decisions := decisions + [RiskDecision(order.id, passed)];
    }

    method SignalToOrder(kind: SignalType, ctx: Context, price: real, at: int) returns (order: Option<Order>)
      requires !kind.SignalHold?
      modifies manager
      ensures order == OrderFor(config, kind, ctx, price, old(manager.lastId) + 1, at)
      ensures order.None? ==> manager.lastId == old(manager.lastId) && manager.orders == old(manager.orders)
      ensures order.Some? ==> manager.lastId == old(manager.lastId) + 1
                              && manager.orders == old(manager.orders)[manager.lastId := order.value]
    {
      hide EntryQuantity;
      order := None;
      if kind.SignalBuy? {
        var quantity := EntryQuantity(config, ctx, price);
        if quantity <= 0.0 {
          return None;
        }
        var created := manager.CreateOrder(Buy, Entry, quantity, price, at);
        order := Some(created);
      } else if ctx.held > 0.0 {
        var created := manager.CreateOrder(Sell, Exit, ctx.held, price, at);
        order := Some(created);
      }
    }

    method CancelOrder(id: int, reply: Reply) returns (ok: bool)
      requires forall k | k in manager.orders :: manager.orders[k].id == k
      modifies manager, synchronizer
      ensures (View(), ok) == Oms.CancelOrder(old(View()), config, id, reply)
    {
      hide CancelId;
      if id !in manager.orders || !Working(manager.orders[id]) {
        return false;
      }
      var order := manager.orders[id];
      if config.hasBroker {
        order := synchronizer.Cancel(order, reply);
      }
      if !order.status.Cancelled? {
        order := order.Withdrawn();
      }
      manager.UpdateOrder(order);
      ok := true;
    }

    method ModifyOrder(id: int, quantity: Option<real>, reference: Option<real>) returns (result: Modified)
      requires forall k | k in manager.orders :: manager.orders[k].id == k
      modifies manager, synchronizer
      ensures (View(), result) == Oms.ModifyOrder(old(View()), config, id, quantity, reference)
    {
      hide KnownAs;
      if id !in manager.orders || !Working(manager.orders[id]) {
        return Done(false);
      }
      var order := manager.orders[id];
      if config.hasBroker {
        var after, raised := synchronizer.Modify(order, quantity, reference);
        if raised {
          manager.UpdateOrder(after);
          assert order == after ==> manager.orders == old(manager.orders);
          return Raises;
        }
        order := after;
      } else if quantity.Some? {
        order := order.(quantity := quantity.value);
      }
      if reference.Some? {
        order := order.(reference := reference.value);
      }
      manager.UpdateOrder(order);
      result := Done(true);
    }

    method SynchronizeOrders(replies: int -> Reply)
      requires forall k | k in manager.orders :: manager.orders[k].id == k
      modifies manager, synchronizer
      ensures View() == Oms.SynchronizeOrders(old(View()), config, replies)
    {
      hide ActiveIds, SyncOne;
      if !config.hasBroker {
        return;
      }
      var ids := manager.GetActiveOrders();
      var i := 0;
      ghost var before := View();
      assert forall k | 0 <= k < |ids| :: ids[k] in before.orders;
      while i < |ids|
        invariant 0 <= i <= |ids|
        invariant View() == SyncIds(before, ids[..i], replies)
        invariant forall k | k in manager.orders :: manager.orders[k].id == k
      {
        assert ids[..i + 1][..i] == ids[..i];
        SynchronizeOrder(ids[i], replies(ids[i]));
        i := i + 1;
      }
      assert ids[..|ids|] == ids;
    }

    method SynchronizeOrder(id: int, reply: Reply)
      requires id in manager.orders && forall k | k in manager.orders :: manager.orders[k].id == k
      modifies manager, synchronizer
      ensures View() == SyncOne(old(View()), id, reply)
      ensures forall k | k in manager.orders :: manager.orders[k].id == k
    {
      hide Synchronized, Compared, Placed, KnownAs;
      var order := manager.orders[id];
      SynchronizedKeepsId(order, reply);
      var after := synchronizer.SynchronizeOrder(order, reply);
      manager.UpdateOrder(after);
    }
  }

  lemma SynchronizedKeepsId(order: Order, reply: Reply)
    ensures Synchronized(order, reply).id == order.id
  {
  }
}
