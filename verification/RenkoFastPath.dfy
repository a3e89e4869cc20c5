/** The replay fast path against the builder path. */
module RenkoFastPath {
  import opened Common
  import opened RenkoModels
  import opened RenkoProviders
  import opened RenkoEngine
  import opened RenkoHistory

  /** Two engines that differ at most in what has been published. */
  predicate SameButEvents(a: Engine, b: Engine) {
    a == b.(bus := a.bus, events := a.events, publishedSize := a.publishedSize)
  }

  /** The builder path adds the same bricks whether or not anyone listens, and a traditional
      builder makes exactly the bricks the fast path makes directly. */
  lemma {:induction false} AddBricksAlike(a: Engine, b: Engine, moves: seq<Move>, size: real)
    requires SameButEvents(a, b) && a.configuration.Some? && a.state.Some?
    ensures var r, s := AddBricks(a, moves, size), AddBricks(b, moves, size);
            r.builder == s.builder && r.history == s.history
    ensures var r := AddBricks(a, moves, size);
            && r == a.(builder := r.builder, history := r.history, state := r.state, events := r.events)
            && (a.builder.TraditionalBuilder? ==>
                  r.builder == a.builder
                  && r.history == a.history +
                       seq(|moves|, i requires 0 <= i < |moves| => TraditionalBrick(moves[i], a.configuration.value)))
  {
    if moves != [] {
      AddBricksAlike(a, b, moves[..|moves| - 1], size);
    }
  }

  lemma {:induction false} ApplyMovesAlike(a: Engine, b: Engine, moves: seq<Move>, size: real)
    requires SameButEvents(a, b) && a.configuration.Some? && a.state.Some?
    ensures SameButEvents(ApplyMoves(a, moves, size), ApplyMoves(b, moves, size))
  {
    if moves != [] {
      ApplyMovesCanonical(a, moves, size);
      ApplyMovesCanonical(b, moves, size);
      AddBricksAlike(a, b, moves, size);
    }
  }

  /** Every path ends with the builder path's bricks and the state of the last of them. */
  lemma {:induction false} ApplyMovesCanonical(e: Engine, moves: seq<Move>, size: real)
    requires e.configuration.Some? && e.state.Some? && moves != []
    ensures var r, built := ApplyMoves(e, moves, size), AddBricks(e, moves, size);
            r == e.(builder := built.builder, history := built.history, events := r.events,
                    state := Some(StateAfter(built.history[|built.history| - 1], size)))
  {
    AddBricksAlike(e, e, moves, size);
    AddBricksBuilds(e, moves, size);
  }

  lemma ChartAlike(a: Engine, b: Engine, c: Candle)
    requires Wired(a) && a.state.Some? && SameButEvents(a, b)
    ensures SameButEvents(Chart(a, c).0, Chart(b, c).0) && Chart(a, c).1 == Chart(b, c).1
  {
    if a.provider.value.Ready() {
      var size := a.provider.value.Size().value;
      var x, y := PublishSize(a, size), PublishSize(b, size);
      var price := SelectPrice(c, a.configuration.value.priceSource);
      if price.Some? && x.pendingOpen.Some? {
        FollowAlike(x, y, PlanBricks(x.state.value, x.history == [], price.value, c.timestamp, size), size);
      }
    }
  }

  lemma FollowAlike(a: Engine, b: Engine, plan: Plan, size: real)
    requires SameButEvents(a, b) && a.configuration.Some? && a.state.Some?
    ensures SameButEvents(Follow(a, plan, size).0, Follow(b, plan, size).0)
    ensures Follow(a, plan, size).1 == Follow(b, plan, size).1
  {
    match plan
    case Climb(moves) => ApplyMovesAlike(a, b, moves, size);
    case _ =>
  }

  lemma ProcessAlike(a: Engine, b: Engine, x: Input)
    requires Wired(a) && SameButEvents(a, b)
    ensures SameButEvents(Process(a, x).0, Process(b, x).0) && Process(a, x).1 == Process(b, x).1
  {
    var s, t := EnsureStarted(a, x.now), EnsureStarted(b, x.now);
    assert SameButEvents(s, t);
    var fed := s.provider.value.Update(x.candle);
    if fed.Some? {
      UpdateKeepsParameters(s.provider.value, x.candle);
      ChartAlike(s.(provider := fed), t.(provider := fed), x.candle);
    }
  }

  lemma {:induction false} RunAlike(a: Engine, b: Engine, xs: seq<Input>)
    requires Wired(a) && SameButEvents(a, b)
    ensures SameButEvents(Run(a, xs), Run(b, xs))
  {
    if xs != [] {
      RunAlike(a, b, xs[..|xs| - 1]);
      ProcessAlike(Run(a, xs[..|xs| - 1]), Run(b, xs[..|xs| - 1]), xs[|xs| - 1]);
    }
  }

  /** The outcome of the last candle of a session. */
  function LastOutcome(e: Engine, xs: seq<Input>): Outcome
    requires Wired(e) && xs != []
  {
    Process(Run(e, xs[..|xs| - 1]), xs[|xs| - 1]).1
  }

  /** For every configuration and every session, the engine on the replay fast path and the one
      publishing on a bus end with equal histories, states, builders and providers, and every
      candle has the same outcome on both. */
  lemma {:induction false} FastPathRefinesBuilderPath(c: BrickConfiguration, xs: seq<Input>)
    requires Fresh(c, false).Some?
    ensures Fresh(c, true).Some?
    ensures var quiet, loud := Fresh(c, false).value, Fresh(c, true).value;
            && Wired(quiet) && Wired(loud)
            && SameButEvents(Run(quiet, xs), Run(loud, xs))
            && (xs != [] ==> LastOutcome(quiet, xs) == LastOutcome(loud, xs))
            && Run(quiet, xs).events == []
  {
    BuildProviderFacts(c);
    var quiet, loud := Fresh(c, false).value, Fresh(c, true).value;
    RunAlike(quiet, loud, xs);
    QuietStaysQuiet(quiet, xs);
    if xs != [] {
      RunAlike(quiet, loud, xs[..|xs| - 1]);
      ProcessAlike(Run(quiet, xs[..|xs| - 1]), Run(loud, xs[..|xs| - 1]), xs[|xs| - 1]);
    }
  }

  lemma {:induction false} QuietStaysQuiet(e: Engine, xs: seq<Input>)
    requires Wired(e) && !e.bus && e.events == []
    ensures Run(e, xs).events == []
  {
    if xs != [] {
      QuietStaysQuiet(e, xs[..|xs| - 1]);
      QuietProcess(Run(e, xs[..|xs| - 1]), xs[|xs| - 1]);
    }
  }

  lemma QuietProcess(e: Engine, x: Input)
    requires Wired(e) && !e.bus && e.events == []
    ensures Process(e, x).0.events == []
  {
    var started := EnsureStarted(e, x.now);
    var fed := started.provider.value.Update(x.candle);
    if fed.Some? && fed.value.Ready() {
      UpdateKeepsParameters(started.provider.value, x.candle);
      var size := fed.value.Size().value;
      var told := started.(provider := fed);
      var price := SelectPrice(x.candle, e.configuration.value.priceSource);
      if price.Some? && told.pendingOpen.Some? {
        QuietFollow(told, PlanBricks(told.state.value, told.history == [], price.value, x.candle.timestamp, size), size);
      }
    }
  }

  lemma QuietFollow(e: Engine, plan: Plan, size: real)
    requires e.configuration.Some? && e.state.Some? && !e.bus
    ensures Follow(e, plan, size).0.events == e.events
  {
    match plan
    case Climb(moves) => AddBricksPublishes(e, moves, size);
    case _ =>
  }
}
