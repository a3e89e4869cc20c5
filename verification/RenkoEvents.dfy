/** What a session says about itself: its state's record, its brick events, the sizes it announces. */
module RenkoEvents {
  import opened Common
  import opened PlainValue
  import opened RenkoModels
  import opened RenkoCodec
  import opened RenkoProviders
  import opened RenkoEngine
  import opened RenkoHistory

  // ---- the state's record ------------------------------------------------------------

  /** Without a brick the state records the anchor, and before that when the session began; then the last
      brick, whose way it goes. */
  predicate Records(s: BrickState, h: seq<Brick>, anchor: Option<real>, size: real, began: Option<int>) {
    && s.isOpen == began.Some? && (anchor.Some? ==> began.Some?)
    && if h != [] then Recalls(s, h[|h| - 1])
       else if anchor.Some? then s.metadata == map[OfMetadata(AnchorPrice) := Num(anchor.value)]
       else s == BrickState(Neutral, 0.0, size, began.Some?,
                            if began.Some? then map[OfMetadata(StartedAt) := Str(Iso(began.value))] else map[])
  }

  predicate Recalls(s: BrickState, b: Brick) {
    s.direction == b.direction != Neutral && s.metadata == map[OfMetadata(MetaField.LastBrickId) := Str(b.id)]
  }

  /** The i-th brick event is about the i-th brick: it brings the brick along, unless it is the opening one,
      and the state as it was before it, at the brick's open and recalling the brick before. */
  predicate Tells(event: Event, h: seq<Brick>, i: nat)
    requires i < |h|
  {
    && event.BrickEvent? && event.brickCount == i + 1
    && event.brick == (if event.kind.BrickOpened? then None else Some(h[i]))
    && event.state.lastPrice == h[i].open
    && (i > 0 ==> Recalls(event.state, h[i - 1]))
  }

  ghost predicate AllTold(h: seq<Brick>, events: seq<Event>) {
    |events| == |h| && forall i | 0 <= i < |h| :: Tells(events[i], h, i)
  }

  ghost predicate Reports(e: Engine, began: Option<int>) {
    && e.configuration.Some? && e.state.Some? && e.boundary == e.pendingOpen && (e.history != [] ==> e.pendingOpen.Some?)
    && Records(e.state.value, e.history, e.pendingOpen, e.configuration.value.brickSize, began)
    && (e.bus ==> AllTold(e.history, BrickEvents(e.events)))
    && (!e.bus ==> e.events == [])
  }

  /** Moves from a price, each from where the one before ends. */
  predicate Chained(moves: seq<Move>, from: real) {
    && (forall k | 0 <= k < |moves| :: moves[k].direction != Neutral)
    && (moves != [] ==> moves[0].open == from)
    && (forall k | 0 < k < |moves| :: moves[k].open == moves[k - 1].close)
  }

  lemma PlanIsChained(s: BrickState, noBricks: bool, price: real, timestamp: int, size: real)
    ensures var plan := PlanBricks(s, noBricks, price, timestamp, size);
            && (plan.Climb? ==> Chained(plan.moves, s.lastPrice))
            && (plan.Idle? ==> plan.state.isOpen && plan.state.metadata == s.metadata
                               && (s.direction != Neutral ==> plan.state.direction == s.direction))
  {
    hide Ladder, Steps, Chained;
    var move := price - s.lastPrice;
    if size != 0.0 {
      var n := RungCount(Steps(move, size));
      LadderIsChained(s.lastPrice, size, TrendOfMove(move), n, timestamp, BrickReversed);
      LadderIsChained(s.lastPrice, size, TrendOfMove(move), n, timestamp, if noBricks then BrickOpened else BrickExtended);
    }
  }

  lemma LadderIsChained(open: real, size: real, d: Trend, n: nat, timestamp: int, first: EventKind)
    requires d != Neutral
    ensures Chained(Ladder(open, size, d, n, timestamp, first), open)
  {
    if n > 0 {
      LadderIsContiguous(open, size, d, n, timestamp, first);
    }
  }

  lemma AddBrickTells(e: Engine, m: Move, size: real)
    requires e.configuration.Some? && e.state.Some? && e.bus && AllTold(e.history, BrickEvents(e.events))
    requires e.history != [] ==> Recalls(e.state.value, e.history[|e.history| - 1])
    requires m.direction != Neutral && m.open == e.state.value.lastPrice
    ensures var r := AddBrick(e, m, size);
            && AllTold(r.history, BrickEvents(r.events)) && r.history != []
            && r.state.Some? && Recalls(r.state.value, r.history[|r.history| - 1]) && r.state.value.lastPrice == m.close
  {
    hide BrickEvents;
    var r := AddBrick(e, m, size);
    var event := r.events[|e.events|];
    BrickEventsOfAppend(e.events, event);
    assert r.history[..|e.history|] == e.history;
  }

  lemma {:induction false} AddBricksTell(e: Engine, moves: seq<Move>, size: real)
    requires e.configuration.Some? && e.state.Some? && e.bus && AllTold(e.history, BrickEvents(e.events))
    requires e.history != [] ==> Recalls(e.state.value, e.history[|e.history| - 1])
    requires Chained(moves, e.state.value.lastPrice)
    ensures var r := AddBricks(e, moves, size);
            && AllTold(r.history, BrickEvents(r.events))
            && (r.history != [] ==> Recalls(r.state.value, r.history[|r.history| - 1]))
            && r.state.value.lastPrice == if moves == [] then e.state.value.lastPrice else moves[|moves| - 1].close
  {
    hide AllTold, Recalls, BrickEvents, AddBrick;
    if moves != [] {
      var n := |moves| - 1;
      AddBricksTell(e, moves[..n], size);
      AddBrickTells(AddBricks(e, moves[..n], size), moves[n], size);
    }
  }

  lemma AfterRecalls(b: Brick, size: real)
    requires b.direction != Neutral
    ensures Recalls(StateAfter(b, size), b) && StateAfter(b, size).isOpen
  {
  }

  lemma ApplyMovesReports(e: Engine, moves: seq<Move>, size: real, began: Option<int>)
    requires Reports(e, began) && began.Some? && e.pendingOpen.Some? && Chained(moves, e.state.value.lastPrice)
    ensures Reports(ApplyMoves(e, moves, size), began)
  {
    hide BrickEvents, AllTold, Recalls, StateAfter, AddBricks, TraditionalBrick;
    if moves != [] {
      var r := ApplyMoves(e, moves, size);
      ApplyMovesStays(e, moves, size);
      BuiltDirected(e, moves, size);
      AfterRecalls(r.history[|r.history| - 1], size);
      if e.bus {
        AddBricksTell(e, moves, size);
      }
    }
  }

  lemma BuiltDirected(e: Engine, moves: seq<Move>, size: real)
    requires e.configuration.Some? && e.state.Some? && moves != [] && Chained(moves, e.state.value.lastPrice)
    ensures var h := ApplyMoves(e, moves, size).history; h != [] && h[|h| - 1].direction != Neutral
  {
    hide ApplyMoves, EventsFollow, BrickEvents;
    ApplyMovesBuilds(e, moves, size);
    var added := ApplyMoves(e, moves, size).history[|e.history|..];
    assert Built(added[|moves| - 1], moves[|moves| - 1]);
  }

  lemma ApplyMovesStays(e: Engine, moves: seq<Move>, size: real)
    requires e.configuration.Some? && e.state.Some? && moves != []
    ensures var r := ApplyMoves(e, moves, size);
            && r.configuration == e.configuration && r.bus == e.bus
            && r.pendingOpen == e.pendingOpen && r.boundary == e.boundary
            && r.history != [] && r.state == Some(StateAfter(r.history[|r.history| - 1], size))
            && (!e.bus ==> r.events == e.events)
            && Sizes(r.events) == Sizes(e.events) && r.publishedSize == e.publishedSize
  {
    hide AllBuilt, EventsFollow, BrickEvents, StateAfter, TraditionalBrick;
    ApplyMovesBuilds(e, moves, size);
    AddBricksStay(e, moves, size);
  }

  lemma {:induction false} AddBricksStay(e: Engine, moves: seq<Move>, size: real)
    requires e.configuration.Some? && e.state.Some?
    ensures var r := AddBricks(e, moves, size);
            && r.boundary == e.boundary && (!e.bus ==> r.events == e.events)
            && Sizes(r.events) == Sizes(e.events) && r.publishedSize == e.publishedSize
  {
    hide Build, StateAfter;
    if moves != [] {
      var before := AddBricks(e, moves[..|moves| - 1], size);
      AddBricksStay(e, moves[..|moves| - 1], size);
      var r := AddBrick(before, moves[|moves| - 1], size);
      if e.bus {
        SizesOfAppend(before.events, r.events[|before.events|]);
      }
    }
  }

  // ---- the announced sizes -------------------------------------------------------------

  /** The size announcements among all published events. */
  function Sizes(events: seq<Event>): (r: seq<Event>)
    ensures forall i | 0 <= i < |r| :: r[i].SizeUpdated?
  {
    if events == [] then [] else
      var last := events[|events| - 1];
      Sizes(events[..|events| - 1]) + if last.SizeUpdated? then [last] else []
  }

  lemma {:induction false} SizesOfAppend(events: seq<Event>, e: Event)
    ensures Sizes(events + [e]) == Sizes(events) + if e.SizeUpdated? then [e] else []
  {
    assert (events + [e])[..|events|] == events;
  }

  /** The last announcement, if any, is the published size. */
  predicate Announced(e: Engine) {
    var heard := Sizes(e.events);
    && (heard == [] <==> e.publishedSize.None?)
    && (heard != [] ==> e.publishedSize == Some(heard[|heard| - 1].size))
  }

  /** A size is announced on a bus when it is not the last one announced. */
  function Heard(heard: seq<Event>, bus: bool, provider: string, size: Option<real>): seq<Event>
    requires forall i | 0 <= i < |heard| :: heard[i].SizeUpdated?
  {
    if bus && size.Some? && (heard == [] || heard[|heard| - 1].size != size.value)
    then heard + [SizeUpdated(provider, size.value)] else heard
  }

  lemma PublishAnnounces(e: Engine, size: real)
    requires e.configuration.Some? && Announced(e)
    ensures var r := PublishSize(e, size);
            && Announced(r)
            && Sizes(r.events) == Heard(Sizes(e.events), e.bus, e.configuration.value.ResolvedProvider(), Some(size))
  {
    hide Sizes;
    SizesOfAppend(e.events, SizeUpdated(e.configuration.value.ResolvedProvider(), size));
  }

  // ---- one candle ------------------------------------------------------------------------

  lemma PublishReports(e: Engine, size: real, began: Option<int>)
    requires Reports(e, began)
    ensures Reports(PublishSize(e, size), began)
  {
    hide Records, AllTold;
    SizeIsNoBrick(e, size);
  }

  lemma AnchorReports(e: Engine, price: real, size: real, began: Option<int>)
    requires Reports(e, began) && began.Some? && e.pendingOpen.None?
    ensures Reports(Anchor(e, price, size), began)
  {
    hide AllTold;
  }

  lemma FollowReports(e: Engine, price: real, timestamp: int, size: real, began: Option<int>)
    requires Reports(e, began) && began.Some? && e.pendingOpen.Some?
    ensures var plan := PlanBricks(e.state.value, e.history == [], price, timestamp, size);
            Reports(Follow(e, plan, size).0, began)
  {
    hide PlanBricks, ApplyMoves, AllTold, Chained;
    PlanIsChained(e.state.value, e.history == [], price, timestamp, size);
    var plan := PlanBricks(e.state.value, e.history == [], price, timestamp, size);
    if plan.Climb? {
      ApplyMovesReports(e, plan.moves, size, began);
    }
  }

  lemma ChartReports(e: Engine, c: Candle, began: Option<int>)
    requires Wired(e) && Reports(e, began) && began.Some?
    ensures Reports(Chart(e, c).0, began)
  {
    hide PublishSize, Anchor, Follow, PlanBricks, SelectPrice, Reports, Provider.Size, Provider.Ready;
    ReportsParts(e, began);
    if e.provider.value.Ready() {
      var size := e.provider.value.Size().value;
      var told := PublishSize(e, size);
      PublishReports(e, size, began);
      PublishFrame(e, size);
      var price := SelectPrice(c, e.configuration.value.priceSource);
      if price.Some? && told.pendingOpen.None? {
        AnchorReports(told, price.value, size, began);
      } else if price.Some? {
        FollowReports(told, price.value, c.timestamp, size, began);
      }
    }
  }

  lemma ReportsParts(e: Engine, began: Option<int>)
    requires Reports(e, began)
    ensures e.configuration.Some? && e.state.Some? && e.state.value.isOpen == began.Some?
  {
  }

  lemma PublishFrame(e: Engine, size: real)
    requires e.configuration.Some?
    ensures var r := PublishSize(e, size); r == e.(events := r.events, publishedSize := r.publishedSize)
  {
  }

  lemma StartReports(e: Engine, now: int, began: Option<int>)
    requires Reports(e, began)
    ensures Reports(EnsureStarted(e, now), if began.Some? then began else Some(now))
    ensures EnsureStarted(e, now) == e.(state := EnsureStarted(e, now).state)
  {
    hide AllTold;
  }

  lemma ProcessReports(e: Engine, x: Input, began: Option<int>)
    requires Wired(e) && Reports(e, began)
    ensures Reports(Process(e, x).0, if began.Some? then began else Some(x.now))
  {
    hide Chart, Reports, EnsureStarted, Provider.Update, Provider.Valid;
    var started := EnsureStarted(e, x.now);
    StartReports(e, x.now, began);
    var fed := started.provider.value.Update(x.candle);
    if fed.Some? {
      UpdateKeepsParameters(started.provider.value, x.candle);
      ProviderUnreported(started, fed, if began.Some? then began else Some(x.now));
      ChartReports(started.(provider := fed), x.candle, if began.Some? then began else Some(x.now));
    }
  }

  lemma ProviderUnreported(e: Engine, fed: Option<Provider>, began: Option<int>)
    requires Reports(e, began)
    ensures Reports(e.(provider := fed), began)
  {
  }

  // ---- whole sessions ------------------------------------------------------------------------

  function Began(xs: seq<Input>): Option<int> {
    if xs == [] then None else Some(xs[0].now)
  }

  lemma FreshReports(c: BrickConfiguration, bus: bool)
    requires Fresh(c, bus).Some?
    ensures Reports(Fresh(c, bus).value, None)
    ensures Wired(Fresh(c, bus).value) && Announced(Fresh(c, bus).value)
  {
    hide BuildProvider;
    BuildProviderFacts(c);
  }

  /** In every session, whatever its candles, the state's record is right, and a bus has heard of every brick
      with its number and the state it started from. */
  lemma {:induction false} SessionReports(c: BrickConfiguration, bus: bool, xs: seq<Input>)
    requires Fresh(c, bus).Some?
    ensures Reports(Run(Fresh(c, bus).value, xs), Began(xs))
  {
    hide Process, Reports, Fresh, Wired;
    FreshReports(c, bus);
    if xs != [] {
      SessionReports(c, bus, xs[..|xs| - 1]);
      ProcessReports(Run(Fresh(c, bus).value, xs[..|xs| - 1]), xs[|xs| - 1], Began(xs[..|xs| - 1]));
    }
  }

  lemma ChartAnnounces(e: Engine, c: Candle)
    requires Wired(e) && e.state.Some? && Announced(e)
    ensures var r := Chart(e, c).0;
            && Announced(r)
            && Sizes(r.events) == Heard(Sizes(e.events), e.bus, e.configuration.value.ResolvedProvider(), e.provider.value.Size())
  {
    hide PublishSize, PlanBricks, ApplyMoves, SelectPrice, Sizes;
    if e.provider.value.Ready() {
      var size := e.provider.value.Size().value;
      var told := PublishSize(e, size);
      PublishAnnounces(e, size);
      PublishFrame(e, size);
      var price := SelectPrice(c, e.configuration.value.priceSource);
      if price.Some? && told.pendingOpen.Some? {
        var plan := PlanBricks(told.state.value, told.history == [], price.value, c.timestamp, size);
        if plan.Climb? {
          FollowKeepsSizes(told, plan.moves, size);
        }
      }
    }
  }

  lemma FollowKeepsSizes(e: Engine, moves: seq<Move>, size: real)
    requires e.configuration.Some? && e.state.Some?
    ensures Sizes(ApplyMoves(e, moves, size).events) == Sizes(e.events)
    ensures ApplyMoves(e, moves, size).publishedSize == e.publishedSize
  {
    if moves != [] {
      hide ApplyMoves;
      ApplyMovesStays(e, moves, size);
    }
  }

  lemma ProcessAnnounces(e: Engine, x: Input)
    requires Wired(e) && Announced(e)
    ensures var r, fed := Process(e, x).0, e.provider.value.Update(x.candle);
            && Announced(r)
            && Sizes(r.events) == Heard(Sizes(e.events), e.bus, e.configuration.value.ResolvedProvider(),
                                        if fed.Some? then fed.value.Size() else None)
  {
    hide Chart, Sizes, Provider.Update, Provider.Valid, Provider.Size;
    var started := EnsureStarted(e, x.now);
    var fed := started.provider.value.Update(x.candle);
    if fed.Some? {
      UpdateKeepsParameters(started.provider.value, x.candle);
      ChartAnnounces(started.(provider := fed), x.candle);
    }
  }

  lemma {:induction false} SessionAnnounces(c: BrickConfiguration, bus: bool, xs: seq<Input>)
    requires Fresh(c, bus).Some?
    ensures Announced(Run(Fresh(c, bus).value, xs))
  {
    hide Process, Announced, Fresh, Wired;
    FreshReports(c, bus);
    if xs != [] {
      SessionAnnounces(c, bus, xs[..|xs| - 1]);
      ProcessAnnounces(Run(Fresh(c, bus).value, xs[..|xs| - 1]), xs[|xs| - 1]);
    }
  }

  /** On a bus each candle that leaves the provider with a size announces it, charted or not, exactly when it
      is not the size announced last; nothing else does, and without a bus nothing is announced. */
  lemma SizesAreAnnounced(c: BrickConfiguration, bus: bool, xs: seq<Input>, x: Input)
    requires Fresh(c, bus).Some?
    ensures var before := Run(Fresh(c, bus).value, xs);
            var fed, heard, next := before.provider.value.Update(x.candle), Sizes(before.events), Sizes(Process(before, x).0.events);
            if bus && fed.Some? && fed.value.Size().Some? && (heard == [] || heard[|heard| - 1].size != fed.value.Size().value)
            then next == heard + [SizeUpdated(c.ResolvedProvider(), fed.value.Size().value)]
            else next == heard
  {
    hide Process, Announced, Fresh, Sizes, Provider.Update, Provider.Size, Provider.Valid;
    FreshReports(c, bus);
    SessionAnnounces(c, bus, xs);
    FreshSetup(c, bus);
    ProcessAnnounces(Run(Fresh(c, bus).value, xs), x);
  }

  lemma FreshSetup(c: BrickConfiguration, bus: bool)
    requires Fresh(c, bus).Some?
    ensures Fresh(c, bus).value.configuration == Some(c) && Fresh(c, bus).value.bus == bus
  {
    hide BuildProvider;
    BuildProviderFacts(c);
  }

  /** Configuring an engine anew fails exactly without an injected provider and a positive size, and then
      only the configuration has changed. Otherwise it gets its provider, goes neutral and closed, keeps what
      it has charted, and announces its next size even if that was announced before. */
  lemma ConfiguringAnew(e: Engine, c: BrickConfiguration, injected: Option<Provider>, size: real)
    ensures var (r, outcome) := Configure(e, c, injected);
            if injected.None? && !(c.brickSize > 0.0) then outcome == Raised(InvalidSize) && r == e.(configuration := Some(c))
            else
              && outcome == Done && r.configuration == Some(c)
              && r.provider == (if injected.Some? then injected else Some(Fixed(c.brickSize)))
              && r.history == e.history && r.events == e.events && r.builder == e.builder && r.pendingOpen == e.pendingOpen
              && r.state.Some? && r.state.value.direction == Neutral && !r.state.value.isOpen && r.state.value.lastPrice == 0.0
              && (e.bus ==> PublishSize(r, size).events == e.events + [SizeUpdated(c.ResolvedProvider(), size)])
  {
    hide BrickConfiguration.ResolvedProvider;
  }
}
