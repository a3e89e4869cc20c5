/** The resting-order book and the exchange simulator as objects. */
module PaperSimulator {
  import opened Common
  import opened Execution
  import opened Ledger
  import opened PaperVenue
  import opened PaperFacts
  import opened Portfolios

  /** A triggered ticket and the price it triggers at. */
  datatype Pair = Pair(ticket: OrderTicket, reference: real)

  /** The resting dictionary keeps insertion order, which is ascending order id. */
  lemma {:induction false} FindIsLookup(ts: seq<OrderTicket>, id: int)
    ensures Find(ts, id).Some? ==> Find(ts, id).value in ts && Find(ts, id).value.order.id == id
    ensures Find(ts, id).None? ==> forall t :: t in ts ==> t.order.id != id
  {
    hide IsTicket;
    if ts != [] {
      var prefix := ts[..|ts| - 1];
      FindIsLookup(prefix, id);
      assert ts == prefix + [ts[|ts| - 1]];
    }
  }

  class PendingOrderManager {
    var resting: seq<OrderTicket>

    constructor ()
      ensures resting == []
    {
      resting := [];
    }

    /** Its id now finds the ticket, every other id what it found before. */
    method Add(ticket: OrderTicket)
      modifies this
      ensures resting == old(resting) + [ticket]
      ensures Find(resting, ticket.order.id) == Some(ticket)
      ensures forall id | id != ticket.order.id :: Find(resting, id) == Find(old(resting), id)
    {
      assert (resting + [ticket])[..|resting|] == resting;
      resting := resting + [ticket];
    }

    /** Nothing with that id is left, and nothing else has gone. */
    method Remove(id: int) returns (ticket: Option<OrderTicket>)
      modifies this
      ensures ticket == Find(old(resting), id)
      ensures resting == if ticket.Some? then Select(old(resting), HasId(id), false) else old(resting)
      ensures if ticket.Some? then ticket.value in old(resting) && ticket.value.order.id == id
              else forall t :: t in old(resting) ==> t.order.id != id
      ensures forall t :: t in resting <==> t in old(resting) && t.order.id != id
    {
      FindIsLookup(resting, id);
      SelectedMeet(resting, HasId(id), false);
      ticket := Find(resting, id);
      if ticket.Some? {
        resting := Select(resting, HasId(id), false);
      }
    }

    /** The tickets that trigger on the quote, with their prices, leave the book. */
    method Match(q: Quote) returns (triggered: seq<Pair>)
      modifies this
      ensures |triggered| == |Select(old(resting), Triggered(q), true)|
      ensures forall i | 0 <= i < |triggered| ::
                && triggered[i].ticket == Select(old(resting), Triggered(q), true)[i]
                && TriggerReference(triggered[i].ticket, q) == Some(triggered[i].reference)
      ensures resting == Select(old(resting), Triggered(q), false)
    {
      hide IsTicket, TriggerReference;
      triggered := [];
      var kept: seq<OrderTicket> := [];
      var i := 0;
      while i < |resting|
        invariant 0 <= i <= |resting| && resting == old(resting)
        invariant kept == Select(resting[..i], Triggered(q), false)
        invariant |triggered| == |Select(resting[..i], Triggered(q), true)|
        invariant forall k | 0 <= k < |triggered| ::
                    && triggered[k].ticket == Select(resting[..i], Triggered(q), true)[k]
                    && TriggerReference(triggered[k].ticket, q) == Some(triggered[k].reference)
      {
        assert resting[..i + 1][..i] == resting[..i];
        var reference := TriggerReference(resting[i], q);
        if reference.Some? {
          triggered := triggered + [Pair(resting[i], reference.value)];
        } else {
          kept := kept + [resting[i]];
        }
        i := i + 1;
      }
      assert resting[..|resting|] == resting;
      resting := kept;
    }
  }

  class ExchangeSimulator {
    const portfolio: Portfolio
    const executor: Executor
    const pending: PendingOrderManager
    var queue: seq<OrderTicket>
    var lastId: nat
    var sequence: int
    var quote: Option<Quote>

    function View(): Venue
      reads this, portfolio, portfolio.position, pending
    {
      Venue(portfolio.View(), queue, pending.resting, lastId, sequence, quote)
    }

    ghost predicate Valid()
      reads this, portfolio, portfolio.position, pending
    {
      Book(queue, true, lastId) && Book(pending.resting, false, lastId)
    }

    constructor (portfolio: Portfolio, executor: Executor)
      ensures this.portfolio == portfolio && this.executor == executor && fresh(pending)
      ensures Valid() && View() == OpenVenue(portfolio.View())
    {
      this.portfolio, this.executor := portfolio, executor;
      var book := new PendingOrderManager();
      pending := book;
      queue, lastId, sequence, quote := [], 0, -1, None;
    }

    method Submit(r: Request) returns (entry: Entry)
      requires Valid()
      modifies this`lastId, this`queue, pending, portfolio
      ensures Valid()
      ensures (View(), entry) == PaperVenue.Submit(old(View()), r)
    {
      hide Worth, IsTicket, Book;
      ghost var before := View();
      SubmitKeepsBooks(before, r);
      var estimate := Estimate(View(), r);
      lastId := lastId + 1;
      var order := NewOrder(lastId, r.side, r.intent, r.quantity, estimate, r.at);
      if r.quantity <= 0.0 {
        return Reported(Event(RejectedEvent, order.Refused(), None));
      }
      if !WellPriced(r.kind, r.limit, r.stop) {
        return Raised;
      }
      if r.side.Buy? && estimate > 0.0 {
        order := order.(reserved := Worth(estimate, r.quantity));
        portfolio.Reserve(order.reserved);
      }
      portfolio.RecordOrder(order);
      var ticket := Ticket(order, r.kind, r.life, r.limit, r.stop);
      assert ticket == TicketFor(before, r);
      if r.kind.Market? {
        queue := queue + [ticket];
      } else {
        pending.Add(ticket);
      }
      entry := Reported(Event(AcceptedEvent, order, None));
    }

    method Cancel(id: int) returns (event: Option<Event>)
      requires Valid()
      modifies this`queue, pending, portfolio
      ensures Valid()
      ensures (View(), event) == PaperVenue.Cancel(old(View()), id)
    {
      hide Book, Select, Find, Freed;
      ghost var before := View();
      BookSelect(queue, true, lastId, HasId(id), false);
      BookSelect(pending.resting, false, lastId, HasId(id), false);
      var ticket := Find(queue, id);
      if ticket.Some? {
        queue := Select(queue, HasId(id), false);
      } else {
        ticket := pending.Remove(id);
      }
      if ticket.None? {
        return None;
      }
      Free(ticket.value);
      event := Some(Event(CancelledEvent, ticket.value.order.Withdrawn(), None));
    }

    method Free(ticket: OrderTicket)
      modifies portfolio
      ensures portfolio.View() == Freed(old(portfolio.View()), ticket)
      ensures unchanged(portfolio.position)
    {
      if ticket.order.side.Buy? {
        portfolio.Release(ticket.order.reserved);
      }
    }

    method Fill(ticket: OrderTicket, price: real, at: int) returns (event: Event)
      modifies portfolio, portfolio.position
      ensures (portfolio.View(), event) == Settle(executor, old(portfolio.View()), sequence, ticket, price, at)
    {
      hide Adjust, Cost, Ledger.ApplyOrder;
      var order := Execute(executor, ticket.order, price, at);
      RaisesIff(portfolio.View(), order, sequence);
      var after, _, raised := portfolio.ApplyOrder(order, sequence);
      assert !raised;
      event := Event(if after.status.Filled? then FilledEvent else RejectedEvent, after, Some(price));
    }

    method OnMarketData(q: Quote) returns (events: seq<Event>)
      requires Valid()
      modifies this`sequence, this`quote, this`queue, pending, portfolio, portfolio.position
      ensures Valid()
      ensures QueueIsMarket(old(View())) && (View(), events) == OnQuote(executor, old(View()), q)
    {
      hide Book, Select, SettleAll, SettleEvents, FreeAll, CancelEvents, IsTicket, AllFillable, Portfolio.View, QueueIsMarket,
           OnQuote, Matched;
      ghost var before := View();
      QuoteUnfolds(executor, before, q);
      EmptyBook(lastId);
      sequence := sequence + 1;
      quote := Some(q);
      events := FillQueue(q);
      LeftIsBook(before, q);
      var more := FillTriggered(q, before.queue, before.account, events);
      events := more;
      BookSelect(pending.resting, false, lastId, Immediate, false);
      var expired := CancelImmediate();
      events := events + expired;
      portfolio.Mark(q.timestamp, q.price);
    }

    /** Market orders fill first, at the quote's price. */
    method FillQueue(q: Quote) returns (events: seq<Event>)
      requires Valid()
      modifies this`queue, portfolio, portfolio.position
      ensures queue == [] && AllFillable(old(queue), q)
      ensures portfolio.View() == SettleAll(executor, old(portfolio.View()), sequence, old(queue), q)
      ensures events == SettleEvents(executor, old(portfolio.View()), sequence, old(queue), q)
    {
      hide Settle, Portfolio.View, IsTicket;
      events := [];
      var i := 0;
      ghost var start := portfolio.View();
      assert AllFillable(queue, q);
      while i < |queue|
        invariant 0 <= i <= |queue| && queue == old(queue)
        invariant portfolio.View() == SettleAll(executor, start, sequence, queue[..i], q)
        invariant events == SettleEvents(executor, start, sequence, queue[..i], q)
      {
        assert queue[..i + 1][..i] == queue[..i];
        assert queue[i].kind.Market?;
        var event := Fill(queue[i], q.price, q.timestamp);
        events := events + [event];
        i := i + 1;
      }
      assert queue[..|queue|] == queue;
      queue := [];
    }

    /** Then what the quote triggers fills, each reporting its trigger before its fill. */
    method FillTriggered(q: Quote, ghost first: seq<OrderTicket>, ghost start: Account, reported: seq<Event>) returns (events: seq<Event>)
      requires Valid() && AllFillable(first, q)
      requires portfolio.View() == SettleAll(executor, start, sequence, first, q)
      requires reported == SettleEvents(executor, start, sequence, first, q)
      modifies pending, portfolio, portfolio.position
      ensures pending.resting == Select(old(pending.resting), Triggered(q), false)
      ensures var all := first + Select(old(pending.resting), Triggered(q), true);
              && AllFillable(all, q)
              && portfolio.View() == SettleAll(executor, start, sequence, all, q)
              && events == SettleEvents(executor, start, sequence, all, q)
    {
      hide Settle, SettleAll, SettleEvents, AllFillable, Portfolio.View, IsTicket, Book, TriggerReference, Select;
      ghost var chosen := Select(pending.resting, Triggered(q), true);
      TriggeredAreFillable(first, pending.resting, lastId, q);
      var matched := pending.Match(q);
      events := reported;
      var i := 0;
      assert first + chosen[..0] == first;
      while i < |matched|
        invariant 0 <= i <= |matched| && AllFillable(first + chosen[..i], q)
        invariant pending.resting == Select(old(pending.resting), Triggered(q), false)
        invariant portfolio.View() == SettleAll(executor, start, sequence, first + chosen[..i], q)
        invariant events == SettleEvents(executor, start, sequence, first + chosen[..i], q)
      {
        assert first + chosen[..i + 1] == first + chosen[..i] + [chosen[i]];
        events := FillTriggeredOne(matched[i], q, first + chosen[..i], start, events);
        i := i + 1;
      }
      assert chosen[..|chosen|] == chosen;
    }

    method FillTriggeredOne(pair: Pair, q: Quote, ghost done: seq<OrderTicket>, ghost start: Account, reported: seq<Event>)
      returns (events: seq<Event>)
      requires AllFillable(done, q) && TriggerReference(pair.ticket, q) == Some(pair.reference)
      requires portfolio.View() == SettleAll(executor, start, sequence, done, q)
      requires reported == SettleEvents(executor, start, sequence, done, q)
      modifies portfolio, portfolio.position
      ensures var all := done + [pair.ticket];
              && AllFillable(all, q)
              && portfolio.View() == SettleAll(executor, start, sequence, all, q)
              && events == SettleEvents(executor, start, sequence, all, q)
    {
      hide Settle, SettleAll, SettleEvents, AllFillable, Portfolio.View, IsTicket, TriggerReference;
      SettleStep(executor, start, sequence, done, pair.ticket, q);
      var notice := Event(TriggeredEvent, pair.ticket.order, Some(pair.reference));
      var event := Fill(pair.ticket, pair.reference, q.timestamp);
      events := reported + [notice] + [event];
    }

    /** Immediate-or-cancel tickets still resting are pulled. */
    method CancelImmediate() returns (events: seq<Event>)
      requires Valid() && queue == []
      modifies this`queue, pending, portfolio
      ensures queue == [] && pending.resting == Select(old(pending.resting), Immediate, false)
      ensures portfolio.View() == FreeAll(old(portfolio.View()), Select(old(pending.resting), Immediate, true))
      ensures events == CancelEvents(Select(old(pending.resting), Immediate, true))
    {
      hide Freed, FreeAll, Portfolio.View, IsTicket, Select, CancelEvents, PaperVenue.Cancel, Book;
      var open := pending.resting;
      ghost var start := portfolio.View();
      events := [];
      var i := 0;
      NothingPulled(start, open);
      while i < |open|
        invariant 0 <= i <= |open|
        invariant Valid() && queue == []
        invariant pending.resting == Select(open[..i], Immediate, false) + open[i..]
        invariant portfolio.View() == FreeAll(start, Select(open[..i], Immediate, true))
        invariant events == CancelEvents(Select(open[..i], Immediate, true))
      {
        SelectStep(open, i, Immediate);
        assert open[i..] == [open[i]] + open[i + 1..];
        if open[i].life.IOC? {
          ghost var kept := Select(open[..i], Immediate, false);
          assert (kept + open[i..])[|kept|] == open[i];
          Pull(View(), kept, open[i..]);
          PullStep(start, Select(open[..i], Immediate, true), open[i]);
          var event := Cancel(open[i].order.id);
          events := events + [event.value];
        }
        i := i + 1;
      }
      assert open[..|open|] == open && open[|open|..] == [];
    }
  }

  lemma QuoteUnfolds(x: Executor, v: Venue, q: Quote)
    requires Book(v.queue, true, v.lastId)
    ensures QueueIsMarket(v)
    ensures var all := v.queue + Select(v.resting, Triggered(q), true);
            var left := Select(v.resting, Triggered(q), false);
            var expired := Select(left, Immediate, true);
            && AllFillable(all, q)
            && OnQuote(x, v, q)
               == (Venue(Mark(FreeAll(SettleAll(x, v.account, v.sequence + 1, all, q), expired), q.timestamp, q.price), [],
                         Select(left, Immediate, false), v.lastId, v.sequence + 1, Some(q)),
                   SettleEvents(x, v.account, v.sequence + 1, all, q) + CancelEvents(expired))
  {
    hide Select, SettleAll, SettleEvents, FreeAll, CancelEvents, IsTicket, AllFillable;
    assert Matched(v, q) == v.queue + Select(v.resting, Triggered(q), true);
  }

  lemma {:induction false} TriggeredAreFillable(first: seq<OrderTicket>, resting: seq<OrderTicket>, lastId: nat, q: Quote)
    requires AllFillable(first, q) && Book(resting, false, lastId)
    ensures AllFillable(first + Select(resting, Triggered(q), true), q)
  {
    hide IsTicket, TriggerReference;
    SelectedMeet(resting, Triggered(q), true);
  }

  lemma SettleStep(x: Executor, a: Account, bar: int, ts: seq<OrderTicket>, t: OrderTicket, q: Quote)
    requires AllFillable(ts, q) && TriggerReference(t, q).Some?
    ensures var price := TriggerReference(t, q).value;
            && AllFillable(ts + [t], q)
            && SettleAll(x, a, bar, ts + [t], q) == Settle(x, SettleAll(x, a, bar, ts, q), bar, t, price, q.timestamp).0
            && SettleEvents(x, a, bar, ts + [t], q)
               == SettleEvents(x, a, bar, ts, q) + [Event(TriggeredEvent, t.order, Some(price))]
                  + [Settle(x, SettleAll(x, a, bar, ts, q), bar, t, price, q.timestamp).1]
  {
    hide Settle, IsTicket;
    assert (ts + [t])[..|ts|] == ts;
  }

  lemma NothingPulled(a: Account, ts: seq<OrderTicket>)
    ensures ts[..0] == [] && ts[0..] == ts
    ensures Select(ts[..0], Immediate, true) == [] == Select(ts[..0], Immediate, false)
    ensures FreeAll(a, []) == a && CancelEvents([]) == []
  {
    assert ts[..0] == [];
  }

  lemma SelectStep(ts: seq<OrderTicket>, i: nat, r: Rule)
    requires i < |ts|
    ensures Meets(ts[i], r) ==> && Select(ts[..i + 1], r, true) == Select(ts[..i], r, true) + [ts[i]]
                                && Select(ts[..i + 1], r, false) == Select(ts[..i], r, false)
    ensures !Meets(ts[i], r) ==> && Select(ts[..i + 1], r, true) == Select(ts[..i], r, true)
                                 && Select(ts[..i + 1], r, false) == Select(ts[..i], r, false) + [ts[i]]
  {
    assert ts[..i + 1][..i] == ts[..i];
  }

  lemma PullStep(a: Account, ts: seq<OrderTicket>, t: OrderTicket)
    ensures FreeAll(a, ts + [t]) == Freed(FreeAll(a, ts), t)
    ensures CancelEvents(ts + [t]) == CancelEvents(ts) + [Cancellation(t)]
  {
    hide Freed;
    assert (ts + [t])[..|ts|] == ts;
  }

  /** With an empty queue, cancelling a resting ticket takes out that ticket only. */
  lemma {:induction false} Pull(v: Venue, before: seq<OrderTicket>, rest: seq<OrderTicket>)
    requires v.queue == [] && rest != [] && v.resting == before + rest && Book(v.resting, false, v.lastId)
    ensures Cancel(v, rest[0].order.id)
            == (v.(account := Freed(v.account, rest[0]), resting := before + rest[1..]), Some(Cancellation(rest[0])))
  {
    var id := rest[0].order.id;
    assert v.resting[|before|] == rest[0];
    forall i | 0 <= i < |before| ensures before[i].order.id != id {
      assert v.resting[i] == before[i];
    }
    forall i | 1 <= i < |rest| ensures rest[i].order.id != id {
      assert v.resting[|before| + i] == rest[i];
    }
    hide Book, IsTicket, Freed;
    PulledFromTheMiddle(before, rest);
  }

  lemma {:induction false} PulledFromTheMiddle(before: seq<OrderTicket>, rest: seq<OrderTicket>)
    requires rest != []
    requires forall i | 0 <= i < |before| :: before[i].order.id != rest[0].order.id
    requires forall i | 1 <= i < |rest| :: rest[i].order.id != rest[0].order.id
    ensures Find(before + rest, rest[0].order.id) == Some(rest[0])
    ensures Select(before + rest, HasId(rest[0].order.id), false) == before + rest[1..]
  {
    hide IsTicket;
    var id := rest[0].order.id;
    var all := before + rest;
    if |rest| == 1 {
      assert all[..|all| - 1] == before;
      Untouched(before, id);
    } else {
      var shorter, last := rest[..|rest| - 1], rest[|rest| - 1];
      assert all[..|all| - 1] == before + shorter && all[|all| - 1] == last;
      PulledFromTheMiddle(before, shorter);
      assert before + rest[1..] == before + shorter[1..] + [last];
    }
  }

  lemma {:induction false} Untouched(ts: seq<OrderTicket>, id: int)
    requires forall i | 0 <= i < |ts| :: ts[i].order.id != id
    ensures Select(ts, HasId(id), false) == ts
  {
    hide IsTicket;
    if ts != [] {
      Untouched(ts[..|ts| - 1], id);
    }
  }

  lemma SubmitKeepsBooks(v: Venue, r: Request)
    requires Book(v.queue, true, v.lastId) && Book(v.resting, false, v.lastId)
    ensures var after := Submit(v, r).0; Book(after.queue, true, after.lastId) && Book(after.resting, false, after.lastId)
  {
    hide Submit, Book, TicketFor;
    SubmitFacts(v, r);
    BookLater(v.queue, true, v.lastId);
    BookLater(v.resting, false, v.lastId);
    if Accepts(r) {
      var t := TicketFor(v, r);
      TicketForFacts(v, r);
      if r.kind.Market? {
        BookAppend(v.queue, true, v.lastId, t);
      } else {
        BookAppend(v.resting, false, v.lastId, t);
      }
    }
  }
}
