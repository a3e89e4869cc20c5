/** The paper exchange over whole runs: reservations are exact and every order has one fate. */
module PaperFacts {
  import opened Common
  import opened Execution
  import opened Ledger
  import opened PaperVenue

  // ---- sums and counts over tickets ----------------------------------------------------

  function SumReserved(ts: seq<OrderTicket>): real {
    if ts == [] then 0.0 else SumReserved(ts[..|ts| - 1]) + ts[|ts| - 1].order.reserved
  }

  /** How many of the tickets carry this id. */
  function Holds(ts: seq<OrderTicket>, id: int): nat {
    if ts == [] then 0 else Holds(ts[..|ts| - 1], id) + if ts[|ts| - 1].order.id == id then 1 else 0
  }

  predicate IsEnd(e: Event) {
    e.kind.FilledEvent? || e.kind.CancelledEvent? || (e.kind.RejectedEvent? && e.reference.Some?)
  }

  /** How many of the events end the order with this id. */
  function Ends(es: seq<Event>, id: int): nat {
    if es == [] then 0 else Ends(es[..|es| - 1], id) + if IsEnd(es[|es| - 1]) && es[|es| - 1].order.id == id then 1 else 0
  }

  function Acceptances(es: seq<Event>, id: int): nat {
    if es == [] then 0
    else Acceptances(es[..|es| - 1], id) + if es[|es| - 1].kind.AcceptedEvent? && es[|es| - 1].order.id == id then 1 else 0
  }

  lemma {:induction false} SumOfAppend(ts: seq<OrderTicket>, us: seq<OrderTicket>)
    ensures SumReserved(ts + us) == SumReserved(ts) + SumReserved(us)
  {
    if us == [] {
      assert ts + us == ts;
    } else {
      assert (ts + us)[..|ts + us| - 1] == ts + us[..|us| - 1];
      SumOfAppend(ts, us[..|us| - 1]);
    }
  }

  lemma {:induction false} HoldsOfAppend(ts: seq<OrderTicket>, us: seq<OrderTicket>, id: int)
    ensures Holds(ts + us, id) == Holds(ts, id) + Holds(us, id)
  {
    if us == [] {
      assert ts + us == ts;
    } else {
      assert (ts + us)[..|ts + us| - 1] == ts + us[..|us| - 1];
      HoldsOfAppend(ts, us[..|us| - 1], id);
    }
  }

  lemma {:induction false} CountsOfAppend(es: seq<Event>, fs: seq<Event>, id: int)
    ensures Ends(es + fs, id) == Ends(es, id) + Ends(fs, id)
    ensures Acceptances(es + fs, id) == Acceptances(es, id) + Acceptances(fs, id)
  {
    hide IsEnd;
    if fs == [] {
      assert es + fs == es;
    } else {
      assert (es + fs)[..|es + fs| - 1] == es + fs[..|fs| - 1];
      CountsOfAppend(es, fs[..|fs| - 1], id);
    }
  }

  lemma CountsOfOne(e: Event, id: int)
    ensures Ends([e], id) == if IsEnd(e) && e.order.id == id then 1 else 0
    ensures Acceptances([e], id) == if e.kind.AcceptedEvent? && e.order.id == id then 1 else 0
  {
    assert [e][..0] == [];
    assert Ends([e][..0], id) == 0 && Acceptances([e][..0], id) == 0;
  }

  /** Splitting the book by a rule splits its reservations and its ids. */
  lemma {:induction false} SelectSplits(ts: seq<OrderTicket>, r: Rule, id: int)
    ensures SumReserved(Select(ts, r, true)) + SumReserved(Select(ts, r, false)) == SumReserved(ts)
    ensures Holds(Select(ts, r, true), id) + Holds(Select(ts, r, false), id) == Holds(ts, id)
    ensures |Select(ts, r, true)| + |Select(ts, r, false)| == |ts|
  {
    hide Meets;
    if ts != [] {
      var prefix := ts[..|ts| - 1];
      var t := ts[|ts| - 1];
      SelectSplits(prefix, r, id);
      var wanted := Meets(t, r);
      assert Select(ts, r, !wanted) == Select(prefix, r, !wanted);
      assert Select(ts, r, wanted)[..|Select(prefix, r, wanted)|] == Select(prefix, r, wanted);
    }
  }

  predicate Ascending(ts: seq<OrderTicket>) {
    forall i, j | 0 <= i < j < |ts| :: ts[i].order.id < ts[j].order.id
  }

  lemma {:induction false} SelectAscends(ts: seq<OrderTicket>, r: Rule, wanted: bool)
    requires Ascending(ts)
    ensures Ascending(Select(ts, r, wanted))
  {
    if ts != [] {
      var prefix := ts[..|ts| - 1];
      SelectAscends(prefix, r, wanted);
      SelectedMeet(prefix, r, wanted);
      var chosen := Select(prefix, r, wanted);
      forall i | 0 <= i < |chosen| ensures chosen[i].order.id < ts[|ts| - 1].order.id {
        assert chosen[i] in prefix;
      }
    } else {
      assert Select(ts, r, wanted) == [];
    }
  }

  lemma {:induction false} HoldsIsMembership(ts: seq<OrderTicket>, id: int)
    requires Ascending(ts)
    ensures Holds(ts, id) <= 1
    ensures Holds(ts, id) == 1 <==> exists t :: t in ts && t.order.id == id
  {
    if ts != [] {
      var prefix := ts[..|ts| - 1];
      var last := ts[|ts| - 1];
      HoldsIsMembership(prefix, id);
      assert ts == prefix + [last];
      if t :| t in ts && t.order.id == id {
        assert t in prefix || t == last;
      }
      if Holds(ts, id) == 1 && last.order.id != id {
        var t :| t in prefix && t.order.id == id;
        assert t in ts;
      }
    }
  }

  lemma {:induction false} FindFinds(ts: seq<OrderTicket>, id: int)
    requires Ascending(ts)
    ensures Find(ts, id).None? ==> Holds(ts, id) == 0 && Select(ts, HasId(id), false) == ts
    ensures Find(ts, id).Some? ==> Find(ts, id).value in ts && Find(ts, id).value.order.id == id
                                   && Select(ts, HasId(id), true) == [Find(ts, id).value]
  {
    hide IsTicket;
    if ts != [] {
      var prefix := ts[..|ts| - 1];
      var last := ts[|ts| - 1];
      FindFinds(prefix, id);
      assert ts == prefix + [last];
      if last.order.id == id {
        SelectSplits(prefix, HasId(id), id);
      }
    }
  }

  // ---- the reservation invariant -----------------------------------------------------------

  /** A book lists tickets of its own kind, by ascending ids that were given out. */
  predicate Book(ts: seq<OrderTicket>, market: bool, lastId: nat) {
    && Ascending(ts)
    && (forall i | 0 <= i < |ts| :: 1 <= ts[i].order.id <= lastId)
    && (forall i | 0 <= i < |ts| :: ts[i].kind.Market? == market)
  }

  /** Both books are in order, and the portfolio's reserved capital is exactly what the open
      orders hold on top of `base`. */
  ghost predicate Sound(v: Venue, base: real) {
    && base >= 0.0
    && Book(v.queue, true, v.lastId) && Book(v.resting, false, v.lastId)
    && v.account.reserved == base + SumReserved(v.queue) + SumReserved(v.resting)
  }

  lemma SoundQueueIsMarket(v: Venue, base: real)
    requires Sound(v, base)
    ensures QueueIsMarket(v)
  {
  }

  lemma {:induction false} SumIsNonNegative(ts: seq<OrderTicket>)
    ensures SumReserved(ts) >= 0.0
  {
    if ts != [] {
      SumIsNonNegative(ts[..|ts| - 1]);
    }
  }

  /** Settling a ticket frees its reservation and nothing else of `reserved`; its event ends it. */
  lemma SettleFrees(x: Executor, a: Account, bar: int, t: OrderTicket, price: real, at: int)
    ensures var (after, event) := Settle(x, a, bar, t, price, at);
            && after.reserved == Freed(a, t).reserved
            && IsEnd(event) && event.order.id == t.order.id && event.reference == Some(price)
            && (event.kind.FilledEvent? <==> event.order.status.Filled?)
            && (event.kind.RejectedEvent? <==> event.order.status.Rejected?)
  {
    hide Adjust, Cost, OpenLong, Close, Fill.Slippage, Fill.Notional;
  }

  /** With that much reserved, freeing a ticket subtracts exactly what it holds: the clamp at
      zero does not act. */
  lemma FreeIsExact(a: Account, t: OrderTicket)
    requires a.reserved >= t.order.reserved
    ensures Freed(a, t).reserved == a.reserved - t.order.reserved
  {
  }

  lemma {:induction false} SettleAllIsExact(x: Executor, a: Account, bar: int, ts: seq<OrderTicket>, q: Quote, rest: real)
    requires AllFillable(ts, q) && rest >= 0.0 && a.reserved == rest + SumReserved(ts)
    ensures SettleAll(x, a, bar, ts, q).reserved == rest
  {
    hide Settle, Freed, Price, Fillable;
    if ts != [] {
      var prefix := ts[..|ts| - 1];
      var t := ts[|ts| - 1];
      SettleAllIsExact(x, a, bar, prefix, q, rest + t.order.reserved);
      var before := SettleAll(x, a, bar, prefix, q);
      SettleFrees(x, before, bar, t, Price(t, q), q.timestamp);
      FreeIsExact(before, t);
    }
  }

  lemma {:induction false} FreeAllIsExact(a: Account, ts: seq<OrderTicket>, rest: real)
    requires rest >= 0.0 && a.reserved == rest + SumReserved(ts)
    ensures FreeAll(a, ts).reserved == rest
  {
    hide Freed;
    if ts != [] {
      var t := ts[|ts| - 1];
      FreeAllIsExact(a, ts[..|ts| - 1], rest + t.order.reserved);
      FreeIsExact(FreeAll(a, ts[..|ts| - 1]), t);
    }
  }

  lemma SumOfOne(t: OrderTicket)
    ensures SumReserved([t]) == t.order.reserved
  {
    assert [t][..0] == [];
    assert SumReserved([t][..0]) == 0.0;
  }

  lemma {:induction false} BookAppend(ts: seq<OrderTicket>, market: bool, lastId: nat, t: OrderTicket)
    requires Book(ts, market, lastId) && t.order.id == lastId + 1 && t.kind.Market? == market
    ensures Book(ts + [t], market, lastId + 1)
    ensures SumReserved(ts + [t]) == SumReserved(ts) + t.order.reserved
  {
    hide IsTicket, SumReserved;
    SumOfAppend(ts, [t]);
    SumOfOne(t);
    var us := ts + [t];
    assert us[|ts|] == t && forall i | 0 <= i < |ts| :: us[i] == ts[i];
  }

  lemma {:induction false} BookLater(ts: seq<OrderTicket>, market: bool, lastId: nat)
    requires Book(ts, market, lastId)
    ensures Book(ts, market, lastId + 1)
  {
  }

  lemma {:induction false} BookSelect(ts: seq<OrderTicket>, market: bool, lastId: nat, r: Rule, wanted: bool)
    requires Book(ts, market, lastId)
    ensures Book(Select(ts, r, wanted), market, lastId)
  {
    hide Meets;
    SelectAscends(ts, r, wanted);
    SelectedMeet(ts, r, wanted);
    var chosen := Select(ts, r, wanted);
    forall i | 0 <= i < |chosen| ensures exists j :: 0 <= j < |ts| && ts[j] == chosen[i] {
      assert chosen[i] in chosen;
      assert chosen[i] in ts;
    }
  }

  lemma SubmitFacts(v: Venue, r: Request)
    ensures var (after, entry) := Submit(v, r);
            && after.lastId == v.lastId + 1
            && (!Accepts(r) ==> after == v.(lastId := v.lastId + 1))
            && (Accepts(r) ==> var t := TicketFor(v, r);
                               && after.account.reserved == v.account.reserved + t.order.reserved
                               && after.queue == (if r.kind.Market? then v.queue + [t] else v.queue)
                               && after.resting == if r.kind.Market? then v.resting else v.resting + [t])
  {
    hide Worth;
  }

  lemma SubmitKeepsSound(v: Venue, r: Request, base: real)
    requires Sound(v, base)
    ensures Sound(Submit(v, r).0, base)
  {
    hide Submit, Book, TicketFor;
    SubmitFacts(v, r);
    BookLater(v.queue, true, v.lastId);
    BookLater(v.resting, false, v.lastId);
    if Accepts(r) {
      var t := TicketFor(v, r);
      TicketForFacts(v, r);
      if r.kind.Market? {
        BookAppend(v.queue, true, v.lastId, t);
      } else {
        BookAppend(v.resting, false, v.lastId, t);
      }
    }
  }

  lemma TicketForFacts(v: Venue, r: Request)
    requires Accepts(r)
    ensures TicketFor(v, r).order.id == v.lastId + 1 && TicketFor(v, r).kind == r.kind
  {
    hide Worth;
  }

  lemma {:induction false} RemovalIsExact(ts: seq<OrderTicket>, market: bool, lastId: nat, id: int)
    requires Book(ts, market, lastId)
    ensures Book(Select(ts, HasId(id), false), market, lastId)
    ensures Find(ts, id).Some? ==>
              SumReserved(ts) == SumReserved(Select(ts, HasId(id), false)) + Find(ts, id).value.order.reserved
  {
    hide Meets;
    BookSelect(ts, market, lastId, HasId(id), false);
    FindFinds(ts, id);
    SelectSplits(ts, HasId(id), id);
    if Find(ts, id).Some? {
      SumOfOne(Find(ts, id).value);
    }
  }

  lemma CancelKeepsSound(v: Venue, id: int, base: real)
    requires Sound(v, base)
    ensures Sound(Cancel(v, id).0, base)
  {
    hide Freed, Select, Find, Book, SumReserved;
    RemovalIsExact(v.queue, true, v.lastId, id);
    RemovalIsExact(v.resting, false, v.lastId, id);
    SumIsNonNegative(Select(v.queue, HasId(id), false));
    SumIsNonNegative(Select(v.resting, HasId(id), false));
    SumIsNonNegative(v.queue);
    SumIsNonNegative(v.resting);
    var found := if Find(v.queue, id).Some? then Find(v.queue, id) else Find(v.resting, id);
    if found.Some? {
      FreeIsExact(v.account, found.value);
    }
  }

  /** The venue after a quote: nothing queued, and resting what neither triggers nor expires. */
  lemma QuoteShape(x: Executor, v: Venue, q: Quote)
    requires QueueIsMarket(v)
    ensures var after := OnQuote(x, v, q).0;
            && after.queue == [] && after.lastId == v.lastId
            && after.resting == Select(Unmatched(v, q), Immediate, false)
            && after.account.reserved == FreeAll(SettleAll(x, v.account, v.sequence + 1, Matched(v, q), q),
                                                 Select(Unmatched(v, q), Immediate, true)).reserved
  {
    hide SettleAll, FreeAll, Select, SettleEvents, CancelEvents, IsTicket;
  }

  lemma {:induction false} QuoteSums(v: Venue, q: Quote)
    requires QueueIsMarket(v)
    ensures SumReserved(Matched(v, q)) + SumReserved(Unmatched(v, q)) == SumReserved(v.queue) + SumReserved(v.resting)
    ensures SumReserved(Unmatched(v, q)) == SumReserved(Select(Unmatched(v, q), Immediate, true))
                                            + SumReserved(Select(Unmatched(v, q), Immediate, false))
  {
    hide Meets, SumReserved;
    SelectSplits(v.resting, Triggered(q), 0);
    SelectSplits(Unmatched(v, q), Immediate, 0);
    SumOfAppend(v.queue, Select(v.resting, Triggered(q), true));
  }

  lemma QuoteKeepsSound(x: Executor, v: Venue, q: Quote, base: real)
    requires Sound(v, base)
    ensures QueueIsMarket(v) && Sound(OnQuote(x, v, q).0, base)
  {
    SoundQueueIsMarket(v, base);
    hide OnQuote, SettleAll, FreeAll, Select, AllFillable, QueueIsMarket, Book, SumReserved, IsTicket, Matched, Unmatched;
    var left := Unmatched(v, q);
    var expired, kept := Select(left, Immediate, true), Select(left, Immediate, false);
    QuoteShape(x, v, q);
    QuoteSums(v, q);
    LeftIsBook(v, q);
    BookSelect(left, false, v.lastId, Immediate, false);
    SumIsNonNegative(left);
    SumIsNonNegative(kept);
    SettleAllIsExact(x, v.account, v.sequence + 1, Matched(v, q), q, base + SumReserved(left));
    FreeAllIsExact(SettleAll(x, v.account, v.sequence + 1, Matched(v, q), q), expired, base + SumReserved(kept));
    EmptyBook(v.lastId);
  }

  lemma LeftIsBook(v: Venue, q: Quote)
    requires Book(v.resting, false, v.lastId)
    ensures Book(Unmatched(v, q), false, v.lastId)
  {
    hide Book;
    BookSelect(v.resting, false, v.lastId, Triggered(q), false);
  }

  lemma EmptyBook(lastId: nat)
    ensures Book([], true, lastId) && Book([], false, lastId) && SumReserved([]) == 0.0
  {
  }

  lemma StepKeepsSound(x: Executor, v: Venue, op: Op, base: real)
    requires Sound(v, base)
    ensures QueueIsMarket(v) && Sound(Step(x, v, op).0, base)
  {
    SoundQueueIsMarket(v, base);
    hide Sound, Submit, Cancel, OnQuote;
    match op
    case Enter(r) => SubmitKeepsSound(v, r, base);
    case Withdraw(id) => CancelKeepsSound(v, id, base);
    case Tick(q) => QuoteKeepsSound(x, v, q, base);
  }

  /** After any interleaving of submissions (accepted, rejected or raising), cancellations and
      quotes, the portfolio's reserved capital is exactly what the open orders hold. */
  lemma {:induction false} ReservationsAreExact(x: Executor, a: Account, ops: seq<Op>)
    requires a.reserved >= 0.0
    ensures Sound(Run(x, OpenVenue(a), ops).0, a.reserved)
  {
    hide Sound, Step;
    if ops == [] {
      OpenVenueIsSound(a);
    } else {
      ReservationsAreExact(x, a, ops[..|ops| - 1]);
      StepKeepsSound(x, Run(x, OpenVenue(a), ops[..|ops| - 1]).0, ops[|ops| - 1], a.reserved);
    }
  }

  lemma {:induction false} SumCovers(ts: seq<OrderTicket>, t: OrderTicket)
    requires t in ts
    ensures SumReserved(ts) >= t.order.reserved
  {
    var prefix := ts[..|ts| - 1];
    assert ts == prefix + [ts[|ts| - 1]];
    if t in prefix {
      SumCovers(prefix, t);
    } else {
      SumIsNonNegative(prefix);
    }
  }

  /** Hence the clamp at zero in a release never acts: at any point of any run, freeing any open
      order subtracts exactly what it holds. */
  lemma ReleaseNeverClamps(x: Executor, a: Account, ops: seq<Op>, t: OrderTicket)
    requires a.reserved >= 0.0
    requires t in Run(x, OpenVenue(a), ops).0.queue || t in Run(x, OpenVenue(a), ops).0.resting
    ensures var now := Run(x, OpenVenue(a), ops).0.account;
            Freed(now, t).reserved == now.reserved - t.order.reserved
  {
    hide Run, SumReserved;
    ReservationsAreExact(x, a, ops);
    var v := Run(x, OpenVenue(a), ops).0;
    SumIsNonNegative(v.queue);
    SumIsNonNegative(v.resting);
    if t in v.queue {
      SumCovers(v.queue, t);
    } else {
      SumCovers(v.resting, t);
    }
  }

  lemma OpenVenueIsSound(a: Account)
    requires a.reserved >= 0.0
    ensures Sound(OpenVenue(a), a.reserved)
  {
    EmptyBook(0);
  }

  // ---- the life of an order ------------------------------------------------------------------

  /** An accepted order is in exactly one of the queue, the resting book, or the ended orders. */
  ghost predicate OneFate(v: Venue, es: seq<Event>, id: int) {
    && Acceptances(es, id) == Holds(v.queue, id) + Holds(v.resting, id) + Ends(es, id)
    && Acceptances(es, id) <= 1
    && (id <= 0 || id > v.lastId ==> Acceptances(es, id) == 0)
  }

  lemma {:induction false} SettleEventCounts(x: Executor, a: Account, bar: int, ts: seq<OrderTicket>, q: Quote, id: int)
    requires AllFillable(ts, q)
    ensures Ends(SettleEvents(x, a, bar, ts, q), id) == Holds(ts, id)
    ensures Acceptances(SettleEvents(x, a, bar, ts, q), id) == 0
  {
    hide Settle, Price, Fillable;
    if ts != [] {
      var prefix := ts[..|ts| - 1];
      var t := ts[|ts| - 1];
      var price := Price(t, q);
      SettleEventCounts(x, a, bar, prefix, q, id);
      var before := SettleEvents(x, a, bar, prefix, q);
      var notice := if t.kind.Market? then [] else [Event(TriggeredEvent, t.order, Some(price))];
      var event := Settle(x, SettleAll(x, a, bar, prefix, q), bar, t, price, q.timestamp).1;
      SettleFrees(x, SettleAll(x, a, bar, prefix, q), bar, t, price, q.timestamp);
      CountsOfAppend(before, notice, id);
      CountsOfAppend(before + notice, [event], id);
      CountsOfOne(event, id);
      CountsOfOne(Event(TriggeredEvent, t.order, Some(price)), id);
    }
  }

  lemma {:induction false} CancelEventCounts(ts: seq<OrderTicket>, id: int)
    ensures Ends(CancelEvents(ts), id) == Holds(ts, id)
    ensures Acceptances(CancelEvents(ts), id) == 0
  {
    if ts != [] {
      var prefix := ts[..|ts| - 1];
      CancelEventCounts(prefix, id);
      CountsOfAppend(CancelEvents(prefix), [Cancellation(ts[|ts| - 1])], id);
      CountsOfOne(Cancellation(ts[|ts| - 1]), id);
    }
  }

  /** Every matched ticket ends once. */
  lemma {:induction false} MatchedCounts(x: Executor, v: Venue, q: Quote, id: int)
    requires QueueIsMarket(v)
    ensures var events := SettleEvents(x, v.account, v.sequence + 1, Matched(v, q), q);
            Ends(events, id) + Holds(Unmatched(v, q), id) == Holds(v.queue, id) + Holds(v.resting, id) && Acceptances(events, id) == 0
  {
    hide Meets, SettleEvents, Ends, Acceptances, Holds, Select, AllFillable;
    SelectSplits(v.resting, Triggered(q), id);
    HoldsOfAppend(v.queue, Select(v.resting, Triggered(q), true), id);
    SettleEventCounts(x, v.account, v.sequence + 1, Matched(v, q), q, id);
  }

  /** Every ticket that is not to wait ends once, the others stay. */
  lemma {:induction false} ExpiredCounts(left: seq<OrderTicket>, id: int)
    ensures var events := CancelEvents(Select(left, Immediate, true));
            Ends(events, id) + Holds(Select(left, Immediate, false), id) == Holds(left, id) && Acceptances(events, id) == 0
  {
    hide Meets, CancelEvents, Ends, Acceptances, Holds, Select;
    SelectSplits(left, Immediate, id);
    CancelEventCounts(Select(left, Immediate, true), id);
  }

  lemma QuoteParts(x: Executor, v: Venue, q: Quote)
    requires QueueIsMarket(v)
    ensures OnQuote(x, v, q).0.resting == Select(Unmatched(v, q), Immediate, false)
    ensures OnQuote(x, v, q).1 == SettleEvents(x, v.account, v.sequence + 1, Matched(v, q), q)
                                  + CancelEvents(Select(Unmatched(v, q), Immediate, true))
  {
    hide SettleAll, SettleEvents, FreeAll, CancelEvents, Select, Matched, Unmatched, Mark, QueueIsMarket;
  }

  lemma {:induction false} QuoteCounts(x: Executor, v: Venue, q: Quote, id: int)
    requires QueueIsMarket(v)
    ensures var (after, events) := OnQuote(x, v, q);
            && Ends(events, id) + Holds(after.resting, id) == Holds(v.queue, id) + Holds(v.resting, id)
            && Acceptances(events, id) == 0
  {
    hide OnQuote, SettleEvents, CancelEvents, Ends, Acceptances, Holds, Select, Matched, Unmatched, QueueIsMarket;
    QuoteParts(x, v, q);
    MatchedCounts(x, v, q, id);
    ExpiredCounts(Unmatched(v, q), id);
    CountsOfAppend(SettleEvents(x, v.account, v.sequence + 1, Matched(v, q), q),
                   CancelEvents(Select(Unmatched(v, q), Immediate, true)), id);
  }

  lemma {:induction false} HoldsOfOne(t: OrderTicket, id: int)
    ensures Holds([t], id) == if t.order.id == id then 1 else 0
  {
    assert [t][..0] == [];
    assert Holds([t][..0], id) == 0;
  }

  lemma {:induction false} BookHolds(ts: seq<OrderTicket>, market: bool, lastId: nat, id: int)
    requires Book(ts, market, lastId)
    ensures Holds(ts, id) <= 1 && (id <= 0 || id > lastId ==> Holds(ts, id) == 0)
  {
    HoldsIsMembership(ts, id);
  }

  lemma QuoteKeepsFate(x: Executor, v: Venue, q: Quote, es: seq<Event>, id: int)
    requires QueueIsMarket(v) && OneFate(v, es, id)
    ensures OneFate(OnQuote(x, v, q).0, es + OnQuote(x, v, q).1, id)
  {
    QuoteShape(x, v, q);
    hide OnQuote, Ends, Acceptances, Select, SettleAll, FreeAll;
    QuoteCounts(x, v, q, id);
    CountsOfAppend(es, OnQuote(x, v, q).1, id);
    assert Holds([], id) == 0;
  }

  lemma {:induction false} RemovalCounts(ts: seq<OrderTicket>, id: int, k: int)
    requires Ascending(ts)
    ensures Holds(ts, k) == Holds(Select(ts, HasId(id), false), k) + if Find(ts, id).Some? && k == id then 1 else 0
  {
    FindFinds(ts, id);
    SelectSplits(ts, HasId(id), k);
    if Find(ts, id).Some? {
      HoldsOfOne(Find(ts, id).value, k);
    }
  }

  lemma CancelKeepsFate(v: Venue, id: int, es: seq<Event>, k: int)
    requires Ascending(v.queue) && Ascending(v.resting) && OneFate(v, es, k)
    ensures var (after, event) := Cancel(v, id);
            OneFate(after, es + if event.Some? then [event.value] else [], k)
  {
    hide Freed, Select, Find, Holds, Ends, Acceptances, Ascending, IsTicket;
    RemovalCounts(v.queue, id, k);
    RemovalCounts(v.resting, id, k);
    FindsItsId(v.queue, id);
    FindsItsId(v.resting, id);
    var event := Cancel(v, id).1;
    if event.Some? {
      CountsOfAppend(es, [event.value], k);
      CountsOfOne(event.value, k);
    } else {
      assert es + [] == es;
    }
  }

  lemma FindsItsId(ts: seq<OrderTicket>, id: int)
    requires Ascending(ts)
    ensures Find(ts, id).Some? ==> Find(ts, id).value.order.id == id
  {
    FindFinds(ts, id);
  }

  lemma SubmitEntry(v: Venue, r: Request)
    ensures var entry := Submit(v, r).1;
            && (entry.Raised? <==> r.quantity > 0.0 && !Accepts(r))
            && (entry.Reported? ==> entry.event.order.id == v.lastId + 1 && entry.event.reference.None?
                                    && entry.event.kind == if Accepts(r) then AcceptedEvent else RejectedEvent)
  {
    hide Worth;
  }

  lemma {:induction false} SubmitKeepsFate(v: Venue, r: Request, es: seq<Event>, id: int)
    requires Book(v.queue, true, v.lastId) && Book(v.resting, false, v.lastId) && OneFate(v, es, id)
    ensures var (after, entry) := Submit(v, r);
            OneFate(after, es + if entry.Reported? then [entry.event] else [], id)
  {
    hide Submit, TicketFor, Holds, Ends, Acceptances, IsTicket, Book, WellPriced;
    SubmitFacts(v, r);
    SubmitEntry(v, r);
    BookHolds(v.queue, true, v.lastId, id);
    BookHolds(v.resting, false, v.lastId, id);
    var entry := Submit(v, r).1;
    if entry.Reported? {
      CountsOfAppend(es, [entry.event], id);
      CountsOfOne(entry.event, id);
    } else {
      assert es + [] == es;
    }
    if Accepts(r) {
      var t := TicketFor(v, r);
      TicketForFacts(v, r);
      HoldsOfOne(t, id);
      HoldsOfAppend(v.queue, [t], id);
      HoldsOfAppend(v.resting, [t], id);
    }
  }

  lemma StepKeepsFate(x: Executor, v: Venue, op: Op, es: seq<Event>, id: int, base: real)
    requires Sound(v, base) && OneFate(v, es, id)
    ensures QueueIsMarket(v) && OneFate(Step(x, v, op).0, es + Step(x, v, op).1, id)
  {
    SoundQueueIsMarket(v, base);
    hide OneFate, Submit, Cancel, OnQuote, Ascending;
    match op
    case Enter(r) => SubmitKeepsFate(v, r, es, id);
    case Withdraw(k) => CancelKeepsFate(v, k, es, id);
    case Tick(q) => QuoteKeepsFate(x, v, q, es, id);
  }

  /** In every run each id is accepted at most once, an accepted order is in exactly one of the
      market queue, the resting book or the ended orders, and it ends at most once. */
  lemma {:induction false} EveryOrderHasOneFate(x: Executor, a: Account, ops: seq<Op>, id: int)
    requires a.reserved >= 0.0
    ensures OneFate(Run(x, OpenVenue(a), ops).0, Run(x, OpenVenue(a), ops).1, id)
  {
    hide Step, Sound, OneFate;
    if ops == [] {
      NoFateYet(a, id);
    } else {
      var prefix := ops[..|ops| - 1];
      EveryOrderHasOneFate(x, a, prefix, id);
      ReservationsAreExact(x, a, prefix);
      StepKeepsFate(x, Run(x, OpenVenue(a), prefix).0, ops[|ops| - 1], Run(x, OpenVenue(a), prefix).1, id, a.reserved);
    }
  }

  lemma NoFateYet(a: Account, id: int)
    ensures OneFate(OpenVenue(a), [], id)
  {
    assert Holds([], id) == 0;
  }

  // ---- what rests, and for how long --------------------------------------------------------------

  /** After a quote no market order waits, nothing immediate rests, and nothing that rests
      triggers on that quote; whatever rests was resting before. */
  lemma {:induction false} QuoteClearsTheBook(x: Executor, v: Venue, q: Quote)
    requires QueueIsMarket(v)
    ensures var after := OnQuote(x, v, q).0;
            && after.queue == []
            && forall t :: t in after.resting <==> t in v.resting && t.life.GTC? && TriggerReference(t, q).None?
  {
    QuoteShape(x, v, q);
    hide OnQuote;
    SelectedMeet(v.resting, Triggered(q), false);
    SelectedMeet(Unmatched(v, q), Immediate, false);
  }

  /** The operation leaves this resting ticket where it is. */
  predicate Spares(t: OrderTicket, op: Op) {
    match op
    case Enter(_) => true
    case Withdraw(id) => id != t.order.id
    case Tick(q) => t.life.GTC? && TriggerReference(t, q).None?
  }

  lemma {:induction false} CancelSpares(v: Venue, id: int, t: OrderTicket)
    requires Ascending(v.queue) && Ascending(v.resting)
    requires Holds(v.queue, t.order.id) + Holds(v.resting, t.order.id) <= 1
    ensures t in Cancel(v, id).0.resting <==> t in v.resting && id != t.order.id
  {
    hide Freed, Holds, Find, Select, Ascending, IsTicket;
    FindFinds(v.queue, id);
    FindFinds(v.resting, id);
    SelectedMeet(v.resting, HasId(id), false);
    HoldsIsMembership(v.queue, t.order.id);
    HoldsIsMembership(v.resting, t.order.id);
  }

  lemma {:induction false} SubmitSpares(v: Venue, r: Request, t: OrderTicket)
    requires t.order.id <= v.lastId
    ensures t in Submit(v, r).0.resting <==> t in v.resting
  {
    hide Submit, TicketFor, IsTicket;
    SubmitFacts(v, r);
    if Accepts(r) {
      TicketForFacts(v, r);
    }
  }

  lemma IdsGrow(x: Executor, v: Venue, op: Op)
    requires QueueIsMarket(v)
    ensures Step(x, v, op).0.lastId >= v.lastId
  {
    hide SettleAll, SettleEvents, FreeAll, CancelEvents, Select, Find, Freed;
  }

  lemma StepSpares(x: Executor, v: Venue, op: Op, t: OrderTicket, base: real, es: seq<Event>)
    requires Sound(v, base) && OneFate(v, es, t.order.id) && t.order.id <= v.lastId
    ensures QueueIsMarket(v) && Step(x, v, op).0.lastId >= t.order.id
    ensures t in Step(x, v, op).0.resting <==> t in v.resting && Spares(t, op)
  {
    SoundQueueIsMarket(v, base);
    IdsGrow(x, v, op);
    hide Submit, Cancel, OnQuote, TriggerReference, Ascending, IsTicket;
    match op
    case Enter(r) => SubmitSpares(v, r, t);
    case Withdraw(k) => CancelSpares(v, k, t);
    case Tick(q) => QuoteClearsTheBook(x, v, q);
  }

  lemma {:induction false} RunExtends(x: Executor, v: Venue, ops: seq<Op>, op: Op)
    requires QueueIsMarket(v)
    ensures QueueIsMarket(Run(x, v, ops).0)
    ensures Run(x, v, ops + [op]).0 == Step(x, Run(x, v, ops).0, op).0
  {
    hide Step;
    assert (ops + [op])[..|ops|] == ops;
  }

  /** A ticket that rests at some point of a run keeps resting exactly until it is cancelled, or
      until a quote: any quote if it is immediate-or-cancel, the first that triggers it if it is
      good till cancelled. */
  lemma {:induction false} RestsUntil(x: Executor, a: Account, ops: seq<Op>, more: seq<Op>, t: OrderTicket)
    requires a.reserved >= 0.0 && t in Run(x, OpenVenue(a), ops).0.resting
    ensures Run(x, OpenVenue(a), ops + more).0.lastId >= t.order.id
    ensures t in Run(x, OpenVenue(a), ops + more).0.resting <==> forall i | 0 <= i < |more| :: Spares(t, more[i])
  {
    hide Step, Sound, OneFate, Spares;
    if more == [] {
      assert ops + more == ops;
      ReservationsAreExact(x, a, ops);
      RestingIdsAreKnown(Run(x, OpenVenue(a), ops).0, a.reserved, t);
    } else {
      var shorter := more[..|more| - 1];
      RestsUntil(x, a, ops, shorter, t);
      assert ops + more == (ops + shorter) + [more[|more| - 1]];
      var run := Run(x, OpenVenue(a), ops + shorter);
      ReservationsAreExact(x, a, ops + shorter);
      EveryOrderHasOneFate(x, a, ops + shorter, t.order.id);
      RunExtends(x, OpenVenue(a), ops + shorter, more[|more| - 1]);
      StepSpares(x, run.0, more[|more| - 1], t, a.reserved, run.1);
    }
  }

  lemma RestingIdsAreKnown(v: Venue, base: real, t: OrderTicket)
    requires Sound(v, base) && t in v.resting
    ensures t.order.id <= v.lastId
  {
  }

  // ---- the market queue ---------------------------------------------------------------------------

  /** A queued market order only waits for a quote. */
  predicate SparesQueued(t: OrderTicket, op: Op) {
    match op
    case Enter(_) => true
    case Withdraw(id) => id != t.order.id
    case Tick(_) => false
  }

  lemma {:induction false} CancelSparesQueued(v: Venue, id: int, t: OrderTicket)
    requires Ascending(v.queue)
    ensures t in Cancel(v, id).0.queue <==> t in v.queue && id != t.order.id
  {
    hide Freed, Holds, Find, Select, Ascending, IsTicket;
    FindFinds(v.queue, id);
    SelectedMeet(v.queue, HasId(id), false);
    HoldsIsMembership(v.queue, t.order.id);
  }

  lemma {:induction false} SubmitSparesQueued(v: Venue, r: Request, t: OrderTicket)
    requires t.order.id <= v.lastId
    ensures t in Submit(v, r).0.queue <==> t in v.queue
  {
    hide Submit, TicketFor, IsTicket;
    SubmitFacts(v, r);
    if Accepts(r) {
      TicketForFacts(v, r);
    }
  }

  lemma StepSparesQueued(x: Executor, v: Venue, op: Op, t: OrderTicket, base: real)
    requires Sound(v, base) && t.order.id <= v.lastId
    ensures QueueIsMarket(v) && Step(x, v, op).0.lastId >= t.order.id
    ensures t in Step(x, v, op).0.queue <==> t in v.queue && SparesQueued(t, op)
  {
    SoundQueueIsMarket(v, base);
    IdsGrow(x, v, op);
    hide Submit, Cancel, OnQuote, Ascending, IsTicket;
    match op
    case Enter(r) => SubmitSparesQueued(v, r, t);
    case Withdraw(k) => CancelSparesQueued(v, k, t);
    case Tick(q) => QuoteClearsTheBook(x, v, q);
  }

  /** A ticket in the market queue stays there exactly until it is cancelled or the next quote. */
  lemma {:induction false} QueuedUntil(x: Executor, a: Account, ops: seq<Op>, more: seq<Op>, t: OrderTicket)
    requires a.reserved >= 0.0 && t in Run(x, OpenVenue(a), ops).0.queue
    ensures Run(x, OpenVenue(a), ops + more).0.lastId >= t.order.id
    ensures t in Run(x, OpenVenue(a), ops + more).0.queue <==> forall i | 0 <= i < |more| :: SparesQueued(t, more[i])
  {
    hide Step, Sound, SparesQueued;
    if more == [] {
      assert ops + more == ops;
      ReservationsAreExact(x, a, ops);
      QueuedIdsAreKnown(Run(x, OpenVenue(a), ops).0, a.reserved, t);
    } else {
      var shorter := more[..|more| - 1];
      QueuedUntil(x, a, ops, shorter, t);
      assert ops + more == (ops + shorter) + [more[|more| - 1]];
      ReservationsAreExact(x, a, ops + shorter);
      RunExtends(x, OpenVenue(a), ops + shorter, more[|more| - 1]);
      StepSparesQueued(x, Run(x, OpenVenue(a), ops + shorter).0, more[|more| - 1], t, a.reserved);
    }
  }

  lemma QueuedIdsAreKnown(v: Venue, base: real, t: OrderTicket)
    requires Sound(v, base) && t in v.queue
    ensures t.order.id <= v.lastId
  {
  }

  lemma AcceptedIsEntered(v: Venue, r: Request)
    requires Accepts(r)
    ensures var after := Submit(v, r).0;
            if r.kind.Market? then TicketFor(v, r) in after.queue else TicketFor(v, r) in after.resting
  {
    hide Worth;
  }

  /** At any point of any run an accepted order waits, in the queue or in the book by its kind, exactly
      as long as the operations that follow spare it. */
  lemma {:induction false} AcceptedOrdersWait(x: Executor, a: Account, ops: seq<Op>, r: Request, more: seq<Op>)
    requires a.reserved >= 0.0 && Accepts(r)
    ensures var t := TicketFor(Run(x, OpenVenue(a), ops).0, r);
            var now := Run(x, OpenVenue(a), ops + [Enter(r)] + more).0;
            if r.kind.Market? then t in now.queue <==> forall i | 0 <= i < |more| :: SparesQueued(t, more[i])
            else t in now.resting <==> forall i | 0 <= i < |more| :: Spares(t, more[i])
  {
    hide Run, Submit, Spares, SparesQueued, TicketFor;
    var v := Run(x, OpenVenue(a), ops).0;
    RunExtends(x, OpenVenue(a), ops, Enter(r));
    AcceptedIsEntered(v, r);
    if r.kind.Market? {
      QueuedUntil(x, a, ops + [Enter(r)], more, TicketFor(v, r));
    } else {
      RestsUntil(x, a, ops + [Enter(r)], more, TicketFor(v, r));
    }
  }

  /** The price a resting ticket waits for. */
  function Level(t: OrderTicket): real
    requires !t.kind.Market?
  {
    if t.kind.Limit? then t.limit.value else t.stop.value
  }

  /** Where a matched ticket ends on a quote: a queued one at the quote's price, a resting one at its own. */
  function EndPrice(t: OrderTicket, q: Quote): real {
    if t.kind.Market? then q.price else Level(t)
  }

  /** The event ends the ticket at that price: filled in full against it, at the quote's time and the
      latency, if it is positive, and without a fill otherwise. */
  predicate EndsAt(x: Executor, e: Event, t: OrderTicket, q: Quote) {
    var at := EndPrice(t, q);
    && IsEnd(e) && e.order.id == t.order.id && e.reference == Some(at)
    && (e.order.fill.Some? <==> at > 0.0)
    && (e.order.fill.Some? ==>
          var f := e.order.fill.value;
          f.reference == at && f.quantity == t.order.quantity && f.side == t.order.side && f.timestamp == q.timestamp + x.latency)
  }

  lemma SettledEndsAt(x: Executor, a: Account, bar: int, t: OrderTicket, q: Quote)
    requires Fillable(t, q)
    ensures Price(t, q) == EndPrice(t, q)
    ensures EndsAt(x, Settle(x, a, bar, t, Price(t, q), q.timestamp).1, t, q)
  {
    SettleFrees(x, a, bar, t, Price(t, q), q.timestamp);
    hide Adjust, Cost, OpenLong, TradeOf, Fill.Slippage, Fill.Notional;
  }

  /** Every ticket a quote matches ends there: a market order at the quote's price, a resting one at its
      limit or stop, whose trigger is reported first with the same price. */
  lemma {:induction false} MatchedEndAtTheirPrice(x: Executor, a: Account, bar: int, ts: seq<OrderTicket>, q: Quote, t: OrderTicket)
    requires AllFillable(ts, q) && t in ts
    ensures exists e :: e in SettleEvents(x, a, bar, ts, q) && EndsAt(x, e, t, q)
    ensures !t.kind.Market? ==> Event(TriggeredEvent, t.order, Some(Level(t))) in SettleEvents(x, a, bar, ts, q)
  {
    hide Settle, EndsAt, Price, Fillable, IsTicket;
    var prefix := ts[..|ts| - 1];
    var last := ts[|ts| - 1];
    assert ts == prefix + [last];
    if t in prefix {
      MatchedEndAtTheirPrice(x, a, bar, prefix, q, t);
      var e :| e in SettleEvents(x, a, bar, prefix, q) && EndsAt(x, e, t, q);
      assert e in SettleEvents(x, a, bar, ts, q);
    } else {
      var event := Settle(x, SettleAll(x, a, bar, prefix, q), bar, last, Price(last, q), q.timestamp).1;
      SettledEndsAt(x, SettleAll(x, a, bar, prefix, q), bar, last, q);
      assert event in SettleEvents(x, a, bar, ts, q);
    }
  }

  lemma {:induction false} SettlingKeepsCurve(x: Executor, a: Account, bar: int, ts: seq<OrderTicket>, q: Quote)
    requires AllFillable(ts, q)
    ensures SettleAll(x, a, bar, ts, q).curve == a.curve
  {
    hide Adjust, Cost, OpenLong, TradeOf, Fill.Slippage, Fill.Notional, Price, IsTicket;
    if ts != [] {
      SettlingKeepsCurve(x, a, bar, ts[..|ts| - 1], q);
    }
  }

  lemma {:induction false} FreeingKeepsCurve(a: Account, ts: seq<OrderTicket>)
    ensures FreeAll(a, ts).curve == a.curve
  {
    if ts != [] {
      FreeingKeepsCurve(a, ts[..|ts| - 1]);
    }
  }

  /** A quote is remembered, and adds one point to the curve: the cash and what is held at its price. */
  lemma QuoteIsMarked(x: Executor, v: Venue, q: Quote)
    requires QueueIsMarket(v)
    ensures var after := OnQuote(x, v, q).0;
            var p := after.account.position;
            && after.quote == Some(q)
            && after.account.curve == v.account.curve
                 + [EquityPoint(q.timestamp, after.account.cash + if p.long && p.quantity > 0.0 then p.quantity * q.price else 0.0)]
  {
    hide SettleAll, FreeAll, Select, SettleEvents, CancelEvents, IsTicket;
    SettlingKeepsCurve(x, v.account, v.sequence + 1, Matched(v, q), q);
    FreeingKeepsCurve(SettleAll(x, v.account, v.sequence + 1, Matched(v, q), q), Select(Unmatched(v, q), Immediate, true));
  }

  // ---- prices ----------------------------------------------------------------------------------

  /** A touch is never missed: a quote whose range includes the level triggers the order, at that
      level; an order is not triggered exactly while it waits strictly outside the range, limit buys and
      stop sells below it, limit sells and stop buys above it. */
  lemma NoTouchIsMissed(t: OrderTicket, q: Quote)
    requires !t.kind.Market?
    ensures q.low <= Level(t) <= q.high ==> TriggerReference(t, q) == Some(Level(t))
    ensures TriggerReference(t, q).Some? ==> TriggerReference(t, q).value == Level(t)
    ensures TriggerReference(t, q).None? <==>
              if t.kind.Limit? == t.order.side.Buy? then Level(t) < q.low else Level(t) > q.high
  {
  }

  /** What a limit or stop buy holds is what it costs to fill without slippage and commission: the
      fill moves exactly the reserved amount out of cash. */
  lemma ReservationIsTheCost(v: Venue, r: Request, x: Executor, a: Account, bar: int, at: int)
    requires Accepts(r) && r.side.Buy? && !r.kind.Market?
    requires x.slippage.ZeroSlippage? && x.brokerage.ZeroBrokerage?
    requires var t := TicketFor(v, r); a.reserved >= t.order.reserved && a.cash >= t.order.reserved
    ensures var t := TicketFor(v, r);
            var (after, event) := Settle(x, a, bar, t, Level(t), at);
            && event.kind.FilledEvent?
            && after.cash == a.cash - t.order.reserved
            && after.reserved == a.reserved - t.order.reserved
            && after.Available() == a.Available()
  {
    hide Settle;
    var t := TicketFor(v, r);
    assert t.order.reserved == Level(t) * r.quantity;
    SettleCosts(x, a, bar, t, Level(t), at);
  }

  lemma SettleCosts(x: Executor, a: Account, bar: int, t: OrderTicket, price: real, at: int)
    requires x.slippage.ZeroSlippage? && x.brokerage.ZeroBrokerage?
    requires t.order.side.Buy? && price > 0.0 && t.order.reserved == price * t.order.quantity
    requires a.reserved >= t.order.reserved && a.cash >= t.order.reserved
    ensures var (after, event) := Settle(x, a, bar, t, price, at);
            && event.kind.FilledEvent?
            && after.cash == a.cash - t.order.reserved
            && after.reserved == a.reserved - t.order.reserved
            && after.Available() == a.Available()
  {
    hide OpenLong, Fill.Slippage;
  }

  /** Other accepted orders hold the last quote's price for a market buy, if there was a quote and its
      price positive, and nothing for a sell. */
  lemma MarketReservation(v: Venue, r: Request)
    requires Accepts(r)
    ensures var held := TicketFor(v, r).order.reserved;
            && (r.side.Sell? ==> held == 0.0)
            && (r.side.Buy? && r.kind.Market? ==>
                  held == if v.quote.Some? && v.quote.value.price > 0.0 then v.quote.value.price * r.quantity else 0.0)
  {
  }

  /** A request for nothing is rejected; one for a limit without its price, a stop without its price or any
      price that is not positive raises. Every other is accepted as what it asked for, at its own price or
      the last quote's. Each time the next id is used up. */
  lemma SubmissionFate(v: Venue, r: Request)
    ensures var (after, entry) := Submit(v, r);
            var reference := if r.kind.Limit? && r.limit.Some? then r.limit.value
                             else if r.kind.Stop? && r.stop.Some? then r.stop.value
                             else if v.quote.Some? then v.quote.value.price else 0.0;
            var asked := Order(v.lastId + 1, r.side, r.intent, r.quantity, reference, r.at, Created, None, 0.0, None);
            && after.lastId == v.lastId + 1
            && if r.quantity <= 0.0 then
                 after == v.(lastId := v.lastId + 1) && entry == Reported(Event(RejectedEvent, asked.(status := Rejected), None))
               else if (r.kind.Limit? && r.limit.None?) || (r.kind.Stop? && r.stop.None?)
                       || (r.limit.Some? && r.limit.value <= 0.0) || (r.stop.Some? && r.stop.value <= 0.0) then
                 after == v.(lastId := v.lastId + 1) && entry == Raised
               else
                 && entry.Reported? && entry.event.kind.AcceptedEvent? && entry.event.reference.None?
                 && entry.event.order == asked.(reserved := entry.event.order.reserved)
                 && after.account == v.account.(reserved := after.account.reserved, orders := v.account.orders + [v.lastId + 1])
  {
  }

  /** Cancelling takes effect exactly when an order of that id waits, and reports that order as cancelled. */
  lemma CancelReports(v: Venue, id: int)
    ensures var (after, event) := Cancel(v, id);
            && (event.None? <==> forall t :: t in v.queue + v.resting ==> t.order.id != id)
            && (event.None? ==> after == v)
            && (event.Some? ==>
                  exists t :: && t in v.queue + v.resting && t.order.id == id
                              && event.value == Event(CancelledEvent, t.order.(status := Cancelled), None))
  {
    hide Freed, Select;
    FoundIsWaiting(v.queue, id);
    FoundIsWaiting(v.resting, id);
  }

  lemma {:induction false} FoundIsWaiting(ts: seq<OrderTicket>, id: int)
    ensures Find(ts, id).None? <==> forall t :: t in ts ==> t.order.id != id
    ensures Find(ts, id).Some? ==> Find(ts, id).value in ts && Find(ts, id).value.order.id == id
  {
    if ts != [] {
      FoundIsWaiting(ts[..|ts| - 1], id);
      assert ts == ts[..|ts| - 1] + [ts[|ts| - 1]];
    }
  }

  function Quotes(ops: seq<Op>): nat {
    if ops == [] then 0 else Quotes(ops[..|ops| - 1]) + if ops[|ops| - 1].Tick? then 1 else 0
  }

  /** The bar a venue stands at counts its quotes, the first being bar 0. */
  lemma {:induction false} QuotesAreCounted(x: Executor, a: Account, ops: seq<Op>)
    ensures Run(x, OpenVenue(a), ops).0.sequence == Quotes(ops) - 1
  {
    hide SettleAll, SettleEvents, FreeAll, CancelEvents, Select, Matched, Find, Freed;
    if ops != [] {
      QuotesAreCounted(x, a, ops[..|ops| - 1]);
    }
  }
}
