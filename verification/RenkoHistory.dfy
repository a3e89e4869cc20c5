/** The brick history over whole sessions. */
module RenkoHistory {
  import opened Common
  import opened PlainValue
  import opened RenkoModels
  import opened RenkoProviders
  import opened ProviderFacts
  import opened RenkoEngine

  // ---- one price against one state --------------------------------------------

  function TrendOfMove(move: real): Trend {
    if move > 0.0 then Up else Down
  }

  /** A distance measured along a direction. */
  function Signed(d: Trend, x: real): real {
    match d
    case Up => x
    case Down => -x
    case Neutral => 0.0
  }

  /** When a price move makes bricks: one size from neutral or along the trend, two against it. */
  predicate Breaks(direction: Trend, move: real, size: real) {
    if direction == Neutral || direction == TrendOfMove(move)
    then Abs(move) >= size
    else Abs(move) >= 2.0 * size
  }

  function EventOf(direction: Trend, noBricks: bool, trend: Trend, k: nat): EventKind {
    if k > 0 then BrickExtended
    else if direction == trend.Opposite() then BrickReversed
    else if noBricks then BrickOpened
    else BrickExtended
  }

  /** A ladder of exactly floor(|move| / size) bricks of height `size`, each starting where
      the one before ends, whose end is less than one brick short of the price. */
  ghost predicate Climbs(moves: seq<Move>, s: BrickState, noBricks: bool, price: real, timestamp: int, size: real) {
    var move := price - s.lastPrice;
    var trend := TrendOfMove(move);
    && size > 0.0 && |moves| == Steps(move, size) >= 1
    && (s.direction == trend.Opposite() ==> |moves| >= 2)
    && moves[0].open == s.lastPrice
    && (forall k | 0 <= k < |moves| ::
          && moves[k].direction == trend
          && moves[k].close == moves[k].open + Signed(trend, size)
          && moves[k].high == Max(moves[k].open, moves[k].close)
          && moves[k].low == Min(moves[k].open, moves[k].close)
          && moves[k].timestamp == timestamp && moves[k].volume == 0.0
          && moves[k].event == EventOf(s.direction, noBricks, trend, k))
    && (forall k | 0 < k < |moves| :: moves[k].open == moves[k - 1].close)
    && 0.0 <= Signed(trend, price - moves[|moves| - 1].close) < size
  }

  lemma {:induction false} StackedIsProduct(k: nat, size: real)
    ensures Stacked(k, size) == Real(k) * size
  {
    if k > 0 {
      StackedIsProduct(k - 1, size);
      assert Real(k) * size == Real(k - 1) * size + size;
    }
  }

  /** A ladder is contiguous, in one direction, of equal heights, and ends n levels away. */
  lemma LadderIsContiguous(open: real, size: real, d: Trend, n: nat, timestamp: int, first: EventKind)
    requires d != Neutral && n >= 1
    ensures var moves := Ladder(open, size, d, n, timestamp, first);
            && moves[0].open == open && moves[n - 1].close == Level(open, size, d, n)
            && (forall k | 0 <= k < n ::
                  && moves[k].direction == d
                  && moves[k].close == moves[k].open + Signed(d, size)
                  && moves[k].high == Max(moves[k].open, moves[k].close)
                  && moves[k].low == Min(moves[k].open, moves[k].close)
                  && moves[k].timestamp == timestamp && moves[k].volume == 0.0
                  && moves[k].event == if k == 0 then first else BrickExtended)
            && (forall k | 0 < k < n :: moves[k].open == moves[k - 1].close)
  {
    var moves := Ladder(open, size, d, n, timestamp, first);
    assert Stacked(0, size) == 0.0;
    forall k | 0 <= k < n ensures moves[k] == Rung(open, size, d, k, timestamp, if k == 0 then first else BrickExtended)
                          ensures moves[k].close == moves[k].open + Signed(d, size)
    {
      assert Stacked(k + 1, size) == Stacked(k, size) + size;
    }
    forall k | 0 < k < n ensures moves[k].open == moves[k - 1].close {
      assert moves[k].open == Level(open, size, d, k);
    }
  }

  lemma LadderClimbs(s: BrickState, noBricks: bool, price: real, timestamp: int, size: real, first: EventKind)
    requires size > 0.0 && Breaks(s.direction, price - s.lastPrice, size)
    requires first == EventOf(s.direction, noBricks, TrendOfMove(price - s.lastPrice), 0)
    ensures var move := price - s.lastPrice;
            && Steps(move, size) >= 1
            && Climbs(Ladder(s.lastPrice, size, TrendOfMove(move), Steps(move, size), timestamp, first),
                      s, noBricks, price, timestamp, size)
  {
    var trend := TrendOfMove(price - s.lastPrice);
    ClimbCounts(s, price, size);
    LadderIsContiguous(s.lastPrice, size, trend, Steps(price - s.lastPrice, size), timestamp, first);
  }

  /** How many bricks a break makes, and where they end. */
  lemma ClimbCounts(s: BrickState, price: real, size: real)
    requires size > 0.0 && Breaks(s.direction, price - s.lastPrice, size)
    ensures var n := Steps(price - s.lastPrice, size);
            var trend := TrendOfMove(price - s.lastPrice);
            && n >= 1 && (s.direction == trend.Opposite() ==> n >= 2)
            && 0.0 <= Signed(trend, price - Level(s.lastPrice, size, trend, n)) < size
  {
    StepsBound(s.direction, price - s.lastPrice, size);
    RemainderOfClimb(s.lastPrice, price, size, Steps(price - s.lastPrice, size));
  }

  lemma StepsBound(direction: Trend, move: real, size: real)
    requires size > 0.0
    ensures Steps(move, size) >= 0
    ensures Real(Steps(move, size)) * size <= Abs(move) < Real(Steps(move, size) + 1) * size
    ensures Steps(move, size) >= 1 <==> Abs(move) >= size
    ensures Steps(move, size) >= 2 <==> Abs(move) >= 2.0 * size
  {
    FloorDivision(Abs(move), size);
  }

  lemma RemainderOfClimb(last: real, price: real, size: real, n: nat)
    requires size > 0.0
    requires Real(n) * size <= Abs(price - last) < Real(n + 1) * size
    ensures var trend := TrendOfMove(price - last);
            0.0 <= Signed(trend, price - Level(last, size, trend, n)) < size
  {
    StackedIsProduct(n, size);
    StackedIsProduct(n + 1, size);
  }

  /** A price makes bricks exactly when it breaks, and then a full climb; otherwise it only
      moves the last price and leaves the direction alone. */
  lemma PlanShape(s: BrickState, noBricks: bool, price: real, timestamp: int, size: real)
    requires size > 0.0
    ensures var plan := PlanBricks(s, noBricks, price, timestamp, size);
            if Breaks(s.direction, price - s.lastPrice, size)
            then plan.Climb? && Climbs(plan.moves, s, noBricks, price, timestamp, size)
            else plan == Idle(BrickState(s.direction, price, size, true, s.metadata))
  {
    var move := price - s.lastPrice;
    var trend := TrendOfMove(move);
    StepsBound(s.direction, move, size);
    if Breaks(s.direction, move, size) {
      LadderClimbs(s, noBricks, price, timestamp, size, EventOf(s.direction, noBricks, trend, 0));
    }
  }

  /** A zero size divides by zero and leaves everything as it is. */
  lemma ZeroSizeDivides(s: BrickState, noBricks: bool, price: real, timestamp: int)
    ensures PlanBricks(s, noBricks, price, timestamp, 0.0) == Division
  {
  }

  // ---- moves become bricks --------------------------------------------------------

  /** The brick has the geometry of the move. */
  predicate Built(b: Brick, m: Move) {
    && b.direction == m.direction && b.open == m.open && b.close == m.close
    && b.high == m.high && b.low == m.low && b.volume == m.volume && b.createdAt == m.timestamp
  }

  ghost predicate AllBuilt(bricks: seq<Brick>, moves: seq<Move>) {
    |bricks| == |moves| && forall k | 0 <= k < |moves| :: Built(bricks[k], moves[k])
  }

  /** The brick events among all published ones. */
  function BrickEvents(events: seq<Event>): seq<Event> {
    if events == [] then [] else
      var last := events[|events| - 1];
      BrickEvents(events[..|events| - 1]) + if last.BrickEvent? then [last] else []
  }

  lemma {:induction false} BrickEventsOfAppend(events: seq<Event>, e: Event)
    ensures BrickEvents(events + [e]) == BrickEvents(events) + if e.BrickEvent? then [e] else []
  {
    assert (events + [e])[..|events|] == events;
  }

  lemma AddBrickBuilds(e: Engine, m: Move, size: real)
    requires e.configuration.Some? && e.state.Some?
    ensures var r := AddBrick(e, m, size);
            && |r.history| == |e.history| + 1 && r.history[..|e.history|] == e.history
            && Built(r.history[|e.history|], m)
            && r.state == (if e.bus then Some(StateAfter(r.history[|e.history|], size)) else e.state)
            && r.pendingOpen == e.pendingOpen
            && (!e.bus ==> r.events == e.events)
            && (e.bus ==> |r.events| == |e.events| + 1 && r.events[..|e.events|] == e.events
                          && Announces(r.events[|e.events|], m, |e.history| + 1))
  {
  }

  predicate Announces(event: Event, m: Move, count: nat) {
    event.BrickEvent? && event.kind == m.event && event.brickCount == count
  }

  lemma {:induction false} AddBricksBuilds(e: Engine, moves: seq<Move>, size: real)
    requires e.configuration.Some? && e.state.Some?
    ensures var r := AddBricks(e, moves, size);
            && r.history[..|e.history|] == e.history
            && AllBuilt(r.history[|e.history|..], moves)
            && r.state == (if e.bus && moves != [] then Some(StateAfter(r.history[|r.history| - 1], size)) else e.state)
            && r.pendingOpen == e.pendingOpen
  {
    hide AddBrick, Built, StateAfter;
    if moves != [] {
      var n := |moves| - 1;
      AddBricksBuilds(e, moves[..n], size);
      var before := AddBricks(e, moves[..n], size);
      AddBrickBuilds(before, moves[n], size);
      var r := AddBrick(before, moves[n], size);
      assert r.history[..|e.history|] == before.history[..|e.history|];
      assert r.history[|e.history|..] == before.history[|e.history|..] + [r.history[|before.history|]];
    }
  }

  /** The published brick events grow by one per move, in order. */
  ghost predicate EventsFollow(events: seq<Event>, past: seq<Event>, moves: seq<Move>, count: nat) {
    && |events| == |past| + |moves|
    && events[..|past|] == past
    && forall i | |past| <= i < |events| :: Announces(events[i], moves[i - |past|], count + 1 + i - |past|)
  }

  lemma {:induction false} AddBricksPublishes(e: Engine, moves: seq<Move>, size: real)
    requires e.configuration.Some? && e.state.Some?
    ensures var r := AddBricks(e, moves, size);
            && (e.bus ==> EventsFollow(BrickEvents(r.events), BrickEvents(e.events), moves, |e.history|))
            && (!e.bus ==> r.events == e.events)
  {
    if moves != [] {
      var n := |moves| - 1;
      AddBricksPublishes(e, moves[..n], size);
      var before := AddBricks(e, moves[..n], size);
      AddBrickBuilds(before, moves[n], size);
      if e.bus {
        var r := AddBrick(before, moves[n], size);
        var event := r.events[|before.events|];
        assert r.events == before.events + [event];
        BrickEventsOfAppend(before.events, event);
        EventsFollowOn(BrickEvents(before.events), BrickEvents(e.events), moves, |e.history|, event);
      }
    }
  }

  lemma EventsFollowOn(events: seq<Event>, past: seq<Event>, moves: seq<Move>, count: nat, event: Event)
    requires moves != [] && EventsFollow(events, past, moves[..|moves| - 1], count)
    requires Announces(event, moves[|moves| - 1], count + |moves|)
    ensures EventsFollow(events + [event], past, moves, count)
  {
  }

  lemma {:induction false} ApplyMovesBuilds(e: Engine, moves: seq<Move>, size: real)
    requires e.configuration.Some? && e.state.Some? && moves != []
    ensures var r := ApplyMoves(e, moves, size);
            && |r.history| == |e.history| + |moves|
            && r.history[..|e.history|] == e.history
            && AllBuilt(r.history[|e.history|..], moves)
            && r.state == Some(StateAfter(r.history[|r.history| - 1], size))
            && r.pendingOpen == e.pendingOpen
            && (e.bus ==> EventsFollow(BrickEvents(r.events), BrickEvents(e.events), moves, |e.history|))
  {
    if !e.bus && e.builder.TraditionalBuilder? {
      var r := AppendFast(e, moves, size);
      assert r.history[|e.history|..] ==
             seq(|moves|, i requires 0 <= i < |moves| => TraditionalBrick(moves[i], e.configuration.value));
    } else {
      AddBricksBuilds(e, moves, size);
      AddBricksPublishes(e, moves, size);
    }
  }

  // ---- the invariant of a session ----------------------------------------------------

  /** Every direction change opens a batch of at least two contiguous bricks. */
  ghost predicate ChangesOpenPairs(h: seq<Brick>) {
    forall i | 0 <= i < |h| - 1 && h[i].direction != h[i + 1].direction ::
      && i + 2 < |h|
      && h[i + 2].direction == h[i + 1].direction
      && h[i + 2].open == h[i + 1].close
      && h[i + 2].createdAt == h[i + 1].createdAt
  }

  /** A brick moves in its direction and spans exactly its open and close. */
  predicate Directed(b: Brick) {
    && b.direction != Neutral
    && (b.direction == Up ==> b.low == b.open < b.close == b.high)
    && (b.direction == Down ==> b.low == b.close < b.open == b.high)
  }

  /** The event that announces the i-th brick of a history. */
  function AnnouncedBy(h: seq<Brick>, i: nat): EventKind
    requires i < |h|
  {
    if i == 0 then BrickOpened
    else if h[i].direction != h[i - 1].direction then BrickReversed
    else BrickExtended
  }

  ghost predicate EventsMatch(h: seq<Brick>, events: seq<Event>) {
    && |events| == |h|
    && forall i | 0 <= i < |h| ::
         events[i].BrickEvent? && events[i].kind == AnnouncedBy(h, i) && events[i].brickCount == i + 1
  }

  ghost predicate Consistent(e: Engine) {
    && Wired(e) && e.state.Some?
    && (e.state.value.direction == Neutral <==> e.history == [])
    && (e.history != [] ==> e.state.value.direction == e.history[|e.history| - 1].direction)
    && (e.pendingOpen.None? ==> e.history == [])
    && (!e.state.value.isOpen ==> e.history == [] && e.pendingOpen.None?)
    && (forall i | 0 <= i < |e.history| :: Directed(e.history[i]))
    && ChangesOpenPairs(e.history)
    && (e.bus ==> EventsMatch(e.history, BrickEvents(e.events)))
  }

  /** The state of a session whose last brick is b: it goes b's way, from b's close. */
  predicate RestsOn(s: BrickState, b: Brick, size: real) {
    && s.direction == b.direction && s.lastPrice == b.close && s.brickSize == size && s.isOpen
    && s.metadata == map[OfMetadata(MetaField.LastBrickId) := Str(b.id)]
  }

  lemma AfterRestsOn(b: Brick, size: real)
    ensures RestsOn(StateAfter(b, size), b, size)
  {
  }

  /** What a candle of size `size` adds: nothing, or one whole climb. */
  ghost predicate AddsClimb(before: Engine, after: Engine, price: real, timestamp: int, size: real)
    requires before.state.Some?
  {
    var n := |before.history|;
    && after.state.Some? && |after.history| >= n && after.history[..n] == before.history
    && after.pendingOpen == before.pendingOpen
    && if Breaks(before.state.value.direction, price - before.state.value.lastPrice, size) then
         exists moves ::
           && Climbs(moves, before.state.value, before.history == [], price, timestamp, size)
           && AllBuilt(after.history[n..], moves)
           && RestsOn(after.state.value, after.history[|after.history| - 1], size)
           && (before.bus ==> EventsFollow(BrickEvents(after.events), BrickEvents(before.events), moves, n))
       else
         && after.history == before.history && BrickEvents(after.events) == BrickEvents(before.events)
         && after.state.value.direction == before.state.value.direction
         && after.state.value.lastPrice == price && after.state.value.brickSize == size && after.state.value.isOpen
  }

  lemma FollowAddsClimb(e: Engine, price: real, timestamp: int, size: real)
    requires e.configuration.Some? && e.state.Some? && size > 0.0
    ensures var plan := PlanBricks(e.state.value, e.history == [], price, timestamp, size);
            && AddsClimb(e, Follow(e, plan, size).0, price, timestamp, size)
            && Follow(e, plan, size).1 == Done
  {
    hide PlanBricks, Climbs, AllBuilt, EventsFollow, ApplyMoves, BrickEvents, Breaks, StateAfter, RestsOn;
    PlanShape(e.state.value, e.history == [], price, timestamp, size);
    var plan := PlanBricks(e.state.value, e.history == [], price, timestamp, size);
    if plan.Climb? {
      ClimbsSome(plan.moves, e.state.value, e.history == [], price, timestamp, size);
      ApplyMovesBuilds(e, plan.moves, size);
      AfterRestsOn(ApplyMoves(e, plan.moves, size).history[|ApplyMoves(e, plan.moves, size).history| - 1], size);
    }
  }

  lemma ClimbsSome(moves: seq<Move>, s: BrickState, noBricks: bool, price: real, timestamp: int, size: real)
    requires Climbs(moves, s, noBricks, price, timestamp, size)
    ensures moves != []
  {
  }

  lemma ClimbedBricksAreDirected(bricks: seq<Brick>, moves: seq<Move>, s: BrickState, noBricks: bool,
                                 price: real, timestamp: int, size: real)
    requires size > 0.0 && AllBuilt(bricks, moves) && Climbs(moves, s, noBricks, price, timestamp, size)
    ensures forall k | 0 <= k < |bricks| :: Directed(bricks[k]) && bricks[k].direction == bricks[0].direction
    ensures forall k | 0 < k < |bricks| :: bricks[k].open == bricks[k - 1].close
    ensures forall k | 0 <= k < |bricks| :: bricks[k].createdAt == timestamp
  {
    var trend := TrendOfMove(price - s.lastPrice);
    assert Signed(trend, size) == if trend == Up then size else -size;
    forall k | 0 <= k < |bricks| ensures Directed(bricks[k]) && bricks[k].direction == trend {
      assert Built(bricks[k], moves[k]);
    }
    forall k | 0 < k < |bricks| ensures bricks[k].open == bricks[k - 1].close {
      assert Built(bricks[k], moves[k]) && Built(bricks[k - 1], moves[k - 1]);
    }
  }

  lemma PairsExtend(h: seq<Brick>, added: seq<Brick>)
    requires ChangesOpenPairs(h) && added != []
    requires forall k | 0 <= k < |added| ::
               added[k].direction == added[0].direction && added[k].createdAt == added[0].createdAt
    requires forall k | 0 < k < |added| :: added[k].open == added[k - 1].close
    requires h != [] && h[|h| - 1].direction != added[0].direction ==> |added| >= 2
    ensures ChangesOpenPairs(h + added)
  {
    var all := h + added;
    forall i | 0 <= i < |all| - 1 && all[i].direction != all[i + 1].direction
      ensures i + 2 < |all| && all[i + 2].direction == all[i + 1].direction
              && all[i + 2].open == all[i + 1].close && all[i + 2].createdAt == all[i + 1].createdAt
    {
      if i + 1 < |h| {
        assert h[i].direction != h[i + 1].direction;
        assert all[i + 2] == h[i + 2];
      } else if i + 1 == |h| {
        assert all[i + 1] == added[0] && all[i + 2] == added[1];
      } else {
        assert false;
      }
    }
  }

  lemma EventsExtend(h: seq<Brick>, events: seq<Event>, added: seq<Brick>, events': seq<Event>, moves: seq<Move>,
                     s: BrickState, price: real, timestamp: int, size: real)
    requires EventsMatch(h, events) && EventsFollow(events', events, moves, |h|)
    requires size > 0.0 && AllBuilt(added, moves) && Climbs(moves, s, h == [], price, timestamp, size)
    requires s.direction == Neutral <==> h == []
    requires h != [] ==> s.direction == h[|h| - 1].direction
    ensures EventsMatch(h + added, events')
  {
    var all := h + added;
    forall i | 0 <= i < |all|
      ensures events'[i].BrickEvent? && events'[i].kind == AnnouncedBy(all, i) && events'[i].brickCount == i + 1
    {
      if i < |h| {
        assert events'[i] == events'[..|events|][i];
        assert AnnouncedBy(all, i) == AnnouncedBy(h, i);
      } else {
        var k := i - |h|;
        assert Announces(events'[i], moves[k], i + 1);
        assert Built(added[k], moves[k]);
        if k > 0 {
          assert Built(added[k - 1], moves[k - 1]);
        }
      }
    }
  }

  lemma ClimbExtendsHistory(h: seq<Brick>, added: seq<Brick>, moves: seq<Move>, s: BrickState,
                            price: real, timestamp: int, size: real)
    requires AllBuilt(added, moves) && Climbs(moves, s, h == [], price, timestamp, size)
    requires s.direction == Neutral <==> h == []
    requires h != [] ==> s.direction == h[|h| - 1].direction
    requires ChangesOpenPairs(h) && forall i | 0 <= i < |h| :: Directed(h[i])
    ensures added != [] && ChangesOpenPairs(h + added)
    ensures forall i | 0 <= i < |h + added| :: Directed((h + added)[i])
  {
    ClimbedBricksAreDirected(added, moves, s, h == [], price, timestamp, size);
    assert Built(added[0], moves[0]);
    PairsExtend(h, added);
  }

  lemma ClimbsNeedSize(moves: seq<Move>, s: BrickState, noBricks: bool, price: real, timestamp: int, size: real)
    requires Climbs(moves, s, noBricks, price, timestamp, size)
    ensures size > 0.0
  {
  }

  /** A session whose bricks are consistent, started, and past its first brick. */
  lemma ConsistentOnceClimbed(e: Engine, size: real)
    requires Wired(e) && e.state.Some? && e.pendingOpen.Some? && e.history != []
    requires RestsOn(e.state.value, e.history[|e.history| - 1], size)
    requires ChangesOpenPairs(e.history) && forall i | 0 <= i < |e.history| :: Directed(e.history[i])
    requires e.bus ==> EventsMatch(e.history, BrickEvents(e.events))
    ensures Consistent(e)
  {
    hide EventsMatch, ChangesOpenPairs, BrickEvents, Wired;
    assert Directed(e.history[|e.history| - 1]);
  }

  lemma ConsistentParts(e: Engine)
    requires Consistent(e)
    ensures e.state.Some? && (e.state.value.direction == Neutral <==> e.history == [])
    ensures e.history != [] ==> e.state.value.direction == e.history[|e.history| - 1].direction
    ensures ChangesOpenPairs(e.history) && forall i | 0 <= i < |e.history| :: Directed(e.history[i])
    ensures e.bus ==> EventsMatch(e.history, BrickEvents(e.events))
  {
  }

  lemma ClimbKeepsConsistent(before: Engine, after: Engine, moves: seq<Move>, price: real, timestamp: int, size: real)
    requires Consistent(before) && before.pendingOpen.Some?
    requires Wired(after) && after.bus == before.bus && after.state.Some?
    requires var n := |before.history|;
             && |after.history| >= n && after.history[..n] == before.history
             && after.pendingOpen == before.pendingOpen
             && Climbs(moves, before.state.value, before.history == [], price, timestamp, size)
             && AllBuilt(after.history[n..], moves)
             && RestsOn(after.state.value, after.history[|after.history| - 1], size)
             && (before.bus ==> EventsFollow(BrickEvents(after.events), BrickEvents(before.events), moves, n))
    ensures Consistent(after)
  {
    hide Consistent, Climbs, AllBuilt, EventsFollow, EventsMatch, ChangesOpenPairs, BrickEvents, Wired, Directed, RestsOn;
    ConsistentParts(before);
    var s := before.state.value;
    ClimbsNeedSize(moves, s, before.history == [], price, timestamp, size);
    var added := after.history[|before.history|..];
    assert after.history == before.history + added;
    ClimbExtendsHistory(before.history, added, moves, s, price, timestamp, size);
    if before.bus {
      EventsExtend(before.history, BrickEvents(before.events), added, BrickEvents(after.events), moves, s,
                   price, timestamp, size);
    }
    ConsistentOnceClimbed(after, size);
  }

  lemma AddsClimbKeepsConsistent(before: Engine, after: Engine, price: real, timestamp: int, size: real)
    requires Consistent(before) && before.pendingOpen.Some? && size > 0.0
    requires Wired(after) && after.bus == before.bus
    requires AddsClimb(before, after, price, timestamp, size)
    ensures Consistent(after)
  {
    hide EventsFollow, EventsMatch, ChangesOpenPairs, BrickEvents, Directed, Built, Steps;
    var n := |before.history|;
    var s := before.state.value;
    if Breaks(s.direction, price - s.lastPrice, size) {
      var moves :|
        && Climbs(moves, s, before.history == [], price, timestamp, size)
        && AllBuilt(after.history[n..], moves)
        && RestsOn(after.state.value, after.history[|after.history| - 1], size)
        && (before.bus ==> EventsFollow(BrickEvents(after.events), BrickEvents(before.events), moves, n));
      ClimbKeepsConsistent(before, after, moves, price, timestamp, size);
    }
  }

  // ---- one candle -----------------------------------------------------------------------

  lemma PublishSizeKeeps(e: Engine, size: real)
    requires Consistent(e)
    ensures Consistent(PublishSize(e, size))
    ensures var r := PublishSize(e, size);
            r == e.(events := r.events, publishedSize := r.publishedSize)
            && BrickEvents(r.events) == BrickEvents(e.events)
  {
    if e.bus {
      BrickEventsOfAppend(e.events, SizeUpdated(e.configuration.value.ResolvedProvider(), size));
    }
  }

  lemma EnsureStartedKeeps(e: Engine, now: int)
    requires Consistent(e)
    ensures Consistent(EnsureStarted(e, now)) && EnsureStarted(e, now).state.value.isOpen
    ensures EnsureStarted(e, now).provider == e.provider
  {
  }

  /** A session's candle keeps the history consistent whenever the size it meets is not negative. */
  lemma ChartKeepsConsistent(e: Engine, c: Candle)
    requires Consistent(e) && e.state.value.isOpen
    requires e.provider.value.Ready() ==> e.provider.value.Size().value >= 0.0
    ensures Consistent(Chart(e, c).0)
  {
    if e.provider.value.Ready() {
      var size := e.provider.value.Size().value;
      var told := PublishSize(e, size);
      PublishSizeKeeps(e, size);
      var price := SelectPrice(c, e.configuration.value.priceSource);
      if price.Some? && told.pendingOpen.Some? {
        var plan := PlanBricks(told.state.value, told.history == [], price.value, c.timestamp, size);
        FollowKeepsSetup(told, plan, size);
        if size > 0.0 {
          FollowAddsClimb(told, price.value, c.timestamp, size);
          AddsClimbKeepsConsistent(told, Follow(told, plan, size).0, price.value, c.timestamp, size);
        } else {
          ZeroSizeDivides(told.state.value, told.history == [], price.value, c.timestamp);
        }
      }
    }
  }

  lemma ProcessKeepsConsistent(e: Engine, x: Input)
    requires Consistent(e)
    requires var fed := e.provider.value.Update(x.candle);
             fed.Some? && fed.value.Ready() ==> fed.value.Size().value >= 0.0
    ensures Consistent(Process(e, x).0)
  {
    hide Chart, Provider.Update, Provider.Reset, BrickEvents, EventsMatch, ChangesOpenPairs, Directed, EnsureStarted;
    var started := EnsureStarted(e, x.now);
    EnsureStartedKeeps(e, x.now);
    var fed := started.provider.value.Update(x.candle);
    if fed.Some? {
      UpdateKeepsParameters(started.provider.value, x.candle);
      ChartKeepsConsistent(started.(provider := fed), x.candle);
    }
  }

  // ---- whole sessions -----------------------------------------------------------------------

  function Candles(xs: seq<Input>): (cs: seq<Candle>)
    ensures |cs| == |xs|
  {
    seq(|xs|, i requires 0 <= i < |xs| => xs[i].candle)
  }

  /** The provider of a session has been fed exactly the session's candles. */
  lemma {:induction false} ProviderOfRun(e: Engine, xs: seq<Input>)
    requires Wired(e)
    ensures Run(e, xs).provider.value == Feed(e.provider.value, Candles(xs))
  {
    if xs != [] {
      var n := |xs| - 1;
      var cs := Candles(xs);
      ProviderOfRun(e, xs[..n]);
      assert cs[..n] == Candles(xs[..n]) && cs[n] == xs[n].candle;
      ProviderOfProcess(Run(e, xs[..n]), xs[n]);
    }
  }

  lemma ProviderOfProcess(e: Engine, x: Input)
    requires Wired(e)
    ensures Process(e, x).0.provider ==
            var fed := e.provider.value.Update(x.candle); if fed.Some? then fed else e.provider
  {
    hide Chart, Provider.Update, Provider.Valid, Provider.Reset;
    var started := EnsureStarted(e, x.now);
    var fed := started.provider.value.Update(x.candle);
    if fed.Some? {
      UpdateKeepsParameters(started.provider.value, x.candle);
      ChartKeepsSetup(started.(provider := fed), x.candle);
    }
  }

  lemma FreshIsConsistent(c: BrickConfiguration, bus: bool)
    requires Fresh(c, bus).Some?
    ensures Consistent(Fresh(c, bus).value)
    ensures Fresh(c, bus).value.provider.value.Reset() == Fresh(c, bus).value.provider.value
  {
    BuildProviderFacts(c);
  }

  /** For every configuration and every session of sane candles: the state is neutral exactly
      while there are no bricks and otherwise points the way of the last one, every brick moves
      in its direction, every direction change opens at least two contiguous bricks, and a bus
      has heard of every brick once, as opened, reversed or extended as the history says. */
  lemma {:induction false} SessionIsConsistent(c: BrickConfiguration, bus: bool, xs: seq<Input>)
    requires Fresh(c, bus).Some? && Sane(Accepted(Candles(xs)))
    ensures Consistent(Run(Fresh(c, bus).value, xs))
  {
    var e := Fresh(c, bus).value;
    FreshIsConsistent(c, bus);
    if xs != [] {
      var n := |xs| - 1;
      var candles := Candles(xs);
      assert candles[..n] == Candles(xs[..n]);
      SanePrefix(candles);
      SessionIsConsistent(c, bus, xs[..n]);
      var before := Run(e, xs[..n]);
      ProviderOfRun(e, xs[..n]);
      ProviderOfRun(e, xs);
      var fed := before.provider.value.Update(xs[n].candle);
      if fed.Some? && fed.value.Ready() {
        assert fed.value == Feed(e.provider.value, candles);
        SizeIsPositive(e.provider.value, candles);
      }
      ProcessKeepsConsistent(before, xs[n]);
    }
  }

  lemma ProcessAddsClimb(e: Engine, x: Input, price: real, fed: Provider)
    requires Consistent(e) && e.pendingOpen.Some?
    requires SelectPrice(x.candle, e.configuration.value.priceSource) == Some(price)
    requires e.provider.value.Update(x.candle) == Some(fed) && fed.Ready() && fed.Size().value > 0.0
    ensures Process(e, x).1 == Done
    ensures AddsClimb(e, Process(e, x).0, price, x.candle.timestamp, fed.Size().value)
  {
    var size := fed.Size().value;
    UpdateKeepsParameters(e.provider.value, x.candle);
    var given := e.(provider := Some(fed));
    PublishSizeKeeps(given, size);
    var told := PublishSize(given, size);
    var plan := PlanBricks(told.state.value, told.history == [], price, x.candle.timestamp, size);
    assert Process(e, x) == Follow(told, plan, size);
    FollowAddsClimb(told, price, x.candle.timestamp, size);
    AddsClimbAlike(told, e, Follow(told, plan, size).0, price, x.candle.timestamp, size);
  }

  /** A climb is relative to the bricks, the state and the brick events only. */
  lemma AddsClimbAlike(a: Engine, b: Engine, after: Engine, price: real, timestamp: int, size: real)
    requires a.state.Some? && b.state == a.state && b.history == a.history && b.bus == a.bus
    requires b.pendingOpen == a.pendingOpen && BrickEvents(b.events) == BrickEvents(a.events)
    requires AddsClimb(a, after, price, timestamp, size)
    ensures AddsClimb(b, after, price, timestamp, size)
  {
  }

  lemma ConsistentHasState(e: Engine)
    requires Consistent(e)
    ensures e.state.Some?
  {
  }

  /** The effect of one more candle on a session, once an anchor price is set: it adds no brick,
      or one climb of exactly floor(|move| / size) contiguous bricks of the provider's size. */
  lemma {:induction false} CandleAddsClimb(c: BrickConfiguration, bus: bool, xs: seq<Input>, x: Input,
                                           price: real, fed: Provider)
    requires Fresh(c, bus).Some? && Sane(Accepted(Candles(xs)))
    requires Run(Fresh(c, bus).value, xs).pendingOpen.Some?
    requires SelectPrice(x.candle, c.priceSource) == Some(price)
    requires Run(Fresh(c, bus).value, xs).provider.value.Update(x.candle) == Some(fed)
    requires fed.Ready() && fed.Size().value > 0.0
    ensures var before := Run(Fresh(c, bus).value, xs);
            && before.state.Some?
            && Process(before, x).1 == Done
            && AddsClimb(before, Process(before, x).0, price, x.candle.timestamp, fed.Size().value)
  {
    hide AddsClimb, Consistent, Process, Sane;
    SessionIsConsistent(c, bus, xs);
    ConsistentHasState(Run(Fresh(c, bus).value, xs));
    ProcessAddsClimb(Run(Fresh(c, bus).value, xs), x, price, fed);
  }

  // ---- every candle -----------------------------------------------------------------------------

  /** The candle can make bricks: an anchor is set, the charted price is there, and with the candle
      the provider has a positive size. */
  predicate Charts(e: Engine, x: Input)
    requires Wired(e)
  {
    var fed := e.provider.value.Update(x.candle);
    && e.pendingOpen.Some? && SelectPrice(x.candle, e.configuration.value.priceSource).Some?
    && fed.Some? && fed.value.Ready() && fed.value.Size().value > 0.0
  }

  lemma NoSizeNoBricks(e: Engine, noBricks: bool, price: real, timestamp: int, size: real)
    requires e.configuration.Some? && e.state.Some? && size <= 0.0
    ensures var r := Follow(e, PlanBricks(e.state.value, noBricks, price, timestamp, size), size).0;
            r.history == e.history && r.events == e.events
  {
    hide ApplyMoves, Ladder;
    if size < 0.0 {
      NegativeSteps(price - e.state.value.lastPrice, size);
      assert Ladder(e.state.value.lastPrice, size, Up, 0, timestamp, BrickOpened) == [];
    }
    NoMoves(e, size);
  }

  lemma NoMoves(e: Engine, size: real)
    requires e.configuration.Some? && e.state.Some?
    ensures ApplyMoves(e, [], size) == e
  {
  }

  lemma NegativeSteps(move: real, size: real)
    requires size < 0.0
    ensures Steps(move, size) <= 0
  {
    var x := Abs(move);
    var q := x / size;
    assert q * size == x;
    if q > 0.0 {
      MulStrict(0.0, q, -size);
    }
  }

  lemma QuietChart(e: Engine, c: Candle)
    requires Wired(e) && e.state.Some?
    requires e.pendingOpen.Some? && SelectPrice(c, e.configuration.value.priceSource).Some? && e.provider.value.Ready()
             ==> e.provider.value.Size().value <= 0.0
    ensures Chart(e, c).0.history == e.history && BrickEvents(Chart(e, c).0.events) == BrickEvents(e.events)
  {
    hide PlanBricks, Follow, SelectPrice, BrickEvents;
    if e.provider.value.Ready() {
      var size := e.provider.value.Size().value;
      var told := PublishSize(e, size);
      SizeIsNoBrick(e, size);
      var price := SelectPrice(c, e.configuration.value.priceSource);
      if price.Some? && told.pendingOpen.Some? {
        NoSizeNoBricks(told, told.history == [], price.value, c.timestamp, size);
      }
    }
  }

  lemma SizeIsNoBrick(e: Engine, size: real)
    requires e.configuration.Some?
    ensures BrickEvents(PublishSize(e, size).events) == BrickEvents(e.events)
  {
    BrickEventsOfAppend(e.events, SizeUpdated(e.configuration.value.ResolvedProvider(), size));
  }

  lemma QuietCandle(e: Engine, x: Input)
    requires Wired(e) && !Charts(e, x)
    ensures var r := Process(e, x).0; r.history == e.history && BrickEvents(r.events) == BrickEvents(e.events)
  {
    hide Chart, BrickEvents, Provider.Update, Provider.Valid, SelectPrice;
    var started := EnsureStarted(e, x.now);
    var fed := started.provider.value.Update(x.candle);
    if fed.Some? {
      UpdateKeepsParameters(started.provider.value, x.candle);
      QuietChart(started.(provider := fed), x.candle);
    }
  }

  /** The candle sets the anchor: there is none yet, and the price and a size are there. */
  predicate Anchors(e: Engine, x: Input)
    requires Wired(e)
  {
    var fed := e.provider.value.Update(x.candle);
    e.pendingOpen.None? && SelectPrice(x.candle, e.configuration.value.priceSource).Some? && fed.Some? && fed.value.Ready()
  }

  /** Then the session stands at that price, going neither way. */
  lemma AnchorIsCharted(e: Engine, x: Input)
    requires Wired(e) && Anchors(e, x)
    ensures var r := Process(e, x).0;
            && r.state.Some? && r.pendingOpen == SelectPrice(x.candle, e.configuration.value.priceSource) == Some(r.state.value.lastPrice)
            && r.state.value.direction == Neutral && r.state.value.isOpen
            && Some(r.state.value.brickSize) == e.provider.value.Update(x.candle).value.Size()
  {
    hide Provider.Update, Provider.Valid, SelectPrice, Provider.Size, Provider.Ready;
    UpdateKeepsParameters(e.provider.value, x.candle);
  }

  /** A candle that cannot make bricks and sets no anchor leaves an open session where it was. */
  lemma NothingMoves(e: Engine, x: Input)
    requires Wired(e) && !Charts(e, x) && !Anchors(e, x) && e.state.Some? && e.state.value.isOpen
    requires var fed := e.provider.value.Update(x.candle); fed.Some? && fed.value.Ready() ==> fed.value.Size().value >= 0.0
    ensures Process(e, x).0.state == e.state && Process(e, x).0.pendingOpen == e.pendingOpen
  {
    hide Provider.Update, Provider.Valid, SelectPrice, Provider.Size, Provider.Ready, PlanBricks;
    var fed := e.provider.value.Update(x.candle);
    if fed.Some? {
      UpdateKeepsParameters(e.provider.value, x.candle);
      var price := SelectPrice(x.candle, e.configuration.value.priceSource);
      if price.Some? {
        ZeroSizeDivides(e.state.value, e.history == [], price.value, x.candle.timestamp);
      }
    }
  }

  /** The effect of one more candle on any session: where it can make bricks it adds none, or one
      climb of exactly floor(|move| / size) contiguous bricks of the provider's size, and stands at the
      price or at the close of the last of them; otherwise it adds none and announces none, and at most
      sets the anchor. */
  lemma {:induction false} CandleEffect(c: BrickConfiguration, bus: bool, xs: seq<Input>, x: Input)
    requires Fresh(c, bus).Some? && Sane(Accepted(Candles(xs)))
    ensures var before := Run(Fresh(c, bus).value, xs);
            var (after, outcome) := Process(before, x);
            if Charts(before, x) then
              && before.state.Some? && outcome == Done
              && AddsClimb(before, after, SelectPrice(x.candle, c.priceSource).value, x.candle.timestamp,
                           before.provider.value.Update(x.candle).value.Size().value)
            else
              && after.history == before.history && BrickEvents(after.events) == BrickEvents(before.events)
              && (Anchors(before, x) ==>
                    && after.pendingOpen == SelectPrice(x.candle, c.priceSource)
                    && after.state.Some? && Some(after.state.value.lastPrice) == after.pendingOpen
                    && after.state.value.direction == Neutral)
  {
    hide AddsClimb, Process, Sane, BrickEvents, SelectPrice, Provider.Update, Anchors;
    var before := Run(Fresh(c, bus).value, xs);
    if Charts(before, x) {
      CandleAddsClimb(c, bus, xs, x, SelectPrice(x.candle, c.priceSource).value, before.provider.value.Update(x.candle).value);
    } else {
      QuietCandle(before, x);
      if Anchors(before, x) {
        AnchorIsCharted(before, x);
      }
    }
  }

  /** After every candle of any session that can make bricks, the session stands less than one brick
      from the candle's price. */
  lemma {:induction false} LastPriceFollows(c: BrickConfiguration, bus: bool, xs: seq<Input>, x: Input)
    requires Fresh(c, bus).Some? && Sane(Accepted(Candles(xs))) && Charts(Run(Fresh(c, bus).value, xs), x)
    ensures var before := Run(Fresh(c, bus).value, xs);
            var after, size := Process(before, x).0, before.provider.value.Update(x.candle).value.Size().value;
            && after.state.Some? && after.state.value.brickSize == size
            && Abs(SelectPrice(x.candle, c.priceSource).value - after.state.value.lastPrice) < size
  {
    hide AddsClimb, Process, Sane, SelectPrice, Provider.Update, Provider.Size, Charts;
    CandleEffect(c, bus, xs, x);
    var before := Run(Fresh(c, bus).value, xs);
    ChartedSize(before, x);
    ClimbEndsNear(before, Process(before, x).0, SelectPrice(x.candle, c.priceSource).value, x.candle.timestamp,
                  before.provider.value.Update(x.candle).value.Size().value);
  }

  lemma ChartedSize(e: Engine, x: Input)
    requires Wired(e) && Charts(e, x)
    ensures SelectPrice(x.candle, e.configuration.value.priceSource).Some?
    ensures var fed := e.provider.value.Update(x.candle); fed.Some? && fed.value.Size().Some? && fed.value.Size().value > 0.0
  {
    hide Provider.Update, SelectPrice;
  }

  lemma ClimbEndsNear(before: Engine, after: Engine, price: real, timestamp: int, size: real)
    requires before.state.Some? && size > 0.0 && AddsClimb(before, after, price, timestamp, size)
    ensures after.state.Some? && after.state.value.brickSize == size && Abs(price - after.state.value.lastPrice) < size
  {
    hide EventsFollow, BrickEvents, Breaks, Steps;
    var n := |before.history|;
    if Breaks(before.state.value.direction, price - before.state.value.lastPrice, size) {
      var moves :|
        && Climbs(moves, before.state.value, before.history == [], price, timestamp, size)
        && AllBuilt(after.history[n..], moves)
        && RestsOn(after.state.value, after.history[|after.history| - 1], size)
        && (before.bus ==> EventsFollow(BrickEvents(after.events), BrickEvents(before.events), moves, n));
      var last := |moves| - 1;
      assert Built(after.history[n..][last], moves[last]);
      assert after.history[n..][last] == after.history[|after.history| - 1];
    }
  }
}
