/** What every brick of a session carries besides its prices: its id, its metadata, its number. */
module RenkoBricks {
  import opened Common
  import opened PlainValue
  import opened RenkoModels
  import opened RenkoCodec
  import opened RenkoProviders
  import opened RenkoEngine

  /** An id made of the brick's own direction, time and prices, these to a hundred-thousandth. */
  function OwnId(b: Brick): Text {
    BrickId(TrendText(b.direction), b.createdAt, Truncate(b.open * 100000.0), Truncate(b.close * 100000.0))
  }

  /** A price in hundred-thousandths, without what is less than one of them. */
  lemma TicksOfPrice(price: real)
    ensures var ticks := Truncate(price * 100000.0);
            && Abs(Real(ticks)) <= Abs(100000.0 * price) < Abs(Real(ticks)) + 1.0
            && (price >= 0.0 ==> ticks >= 0) && (price <= 0.0 ==> ticks <= 0)
  {
  }

  /** Two such ids are equal exactly when all four are. */
  lemma IdsAgreeIff(a: Brick, b: Brick)
    ensures OwnId(a) == OwnId(b) <==>
            && a.direction == b.direction && a.createdAt == b.createdAt
            && Truncate(a.open * 100000.0) == Truncate(b.open * 100000.0)
            && Truncate(a.close * 100000.0) == Truncate(b.close * 100000.0)
  {
    TrendRoundTrip(a.direction);
    TrendRoundTrip(b.direction);
  }

  /** The n-th brick of a session: its metadata names the configured size and price source; a hybrid
      builder numbers it, in the metadata and in the id. */
  predicate Stamped(b: Brick, c: BrickConfiguration, hybrid: bool, n: int) {
    && Field(b.metadata, OfMetadata(MetaField.BrickSize), Null) == Num(c.brickSize)
    && Field(b.metadata, OfMetadata(MetaField.PriceSource), Null) == Str(Literal(ChartPriceText(c.priceSource)))
    && (if hybrid then
          && b.id == HybridId(n, OwnId(b))
          && Field(b.metadata, BUILDER_TYPE, Null) == Str(Literal("hybrid"))
          && Field(b.metadata, OfMetadata(HybridSequence), Null) == Int(n)
        else b.id == OwnId(b))
  }

  predicate AllStamped(h: seq<Brick>, c: BrickConfiguration, hybrid: bool) {
    forall i | 0 <= i < |h| :: Stamped(h[i], c, hybrid, i + 1)
  }

  predicate Numbered(e: Engine) {
    && e.configuration.Some?
    && (e.builder.HybridBuilder? ==> e.builder.sequence == |e.history|)
    && AllStamped(e.history, e.configuration.value, e.builder.HybridBuilder?)
  }

  lemma BuiltIsStamped(b: Builder, m: Move, c: BrickConfiguration, n: int)
    requires b.HybridBuilder? ==> b.sequence == n
    ensures var (after, brick) := Build(b, m, c);
            && Stamped(brick, c, b.HybridBuilder?, n + 1)
            && after.HybridBuilder? == b.HybridBuilder? && (b.HybridBuilder? ==> after.sequence == n + 1)
  {
  }

  lemma {:induction false} AddBricksKeepsNumbered(e: Engine, moves: seq<Move>, size: real)
    requires e.state.Some? && Numbered(e)
    ensures Numbered(AddBricks(e, moves, size)) && AddBricks(e, moves, size).builder.HybridBuilder? == e.builder.HybridBuilder?
  {
    hide Build, StateAfter, Stamped;
    if moves != [] {
      var before := AddBricks(e, moves[..|moves| - 1], size);
      AddBricksKeepsNumbered(e, moves[..|moves| - 1], size);
      BuiltIsStamped(before.builder, moves[|moves| - 1], before.configuration.value, |before.history|);
    }
  }

  lemma FastIsStamped(m: Move, c: BrickConfiguration, n: int)
    ensures Stamped(TraditionalBrick(m, c), c, false, n)
  {
  }

  lemma ApplyMovesKeepsNumbered(e: Engine, moves: seq<Move>, size: real)
    requires e.state.Some? && Numbered(e)
    ensures Numbered(ApplyMoves(e, moves, size))
  {
    hide Stamped, StateAfter, TraditionalBrick, AddBricks;
    if !e.bus && e.builder.TraditionalBuilder? {
      forall m: Move, n: int ensures Stamped(TraditionalBrick(m, e.configuration.value), e.configuration.value, false, n) {
        FastIsStamped(m, e.configuration.value, n);
      }
    } else {
      AddBricksKeepsNumbered(e, moves, size);
    }
  }

  lemma ChartKeepsNumbered(e: Engine, c: Candle)
    requires Wired(e) && e.state.Some? && Numbered(e)
    ensures Numbered(Chart(e, c).0)
  {
    hide AllStamped, PlanBricks, ApplyMoves, SelectPrice;
    if e.provider.value.Ready() {
      var size := e.provider.value.Size().value;
      var told := PublishSize(e, size);
      var price := SelectPrice(c, e.configuration.value.priceSource);
      if price.Some? && told.pendingOpen.Some? {
        var plan := PlanBricks(told.state.value, told.history == [], price.value, c.timestamp, size);
        if plan.Climb? {
          ApplyMovesKeepsNumbered(told, plan.moves, size);
        }
      }
    }
  }

  lemma ProcessKeepsNumbered(e: Engine, x: Input)
    requires Wired(e) && Numbered(e)
    ensures Numbered(Process(e, x).0)
  {
    hide Chart, AllStamped, Provider.Update, Provider.Valid;
    var started := EnsureStarted(e, x.now);
    var fed := started.provider.value.Update(x.candle);
    if fed.Some? {
      UpdateKeepsParameters(started.provider.value, x.candle);
      ChartKeepsNumbered(started.(provider := fed), x.candle);
    }
  }

  lemma {:induction false} RunKeepsNumbered(e: Engine, xs: seq<Input>)
    requires Wired(e) && Numbered(e)
    ensures Numbered(Run(e, xs))
  {
    hide Process, Numbered, Wired;
    if xs != [] {
      RunKeepsNumbered(e, xs[..|xs| - 1]);
      ProcessKeepsNumbered(Run(e, xs[..|xs| - 1]), xs[|xs| - 1]);
    }
  }

  /** In every session each brick names the configured size and price source and has an id made of its
      own direction, time and prices; a hybrid builder moreover numbers them 1, 2, 3 and so on. */
  lemma {:induction false} SessionIsNumbered(c: BrickConfiguration, bus: bool, xs: seq<Input>)
    requires Fresh(c, bus).Some?
    ensures Numbered(Run(Fresh(c, bus).value, xs))
  {
    hide BuildProvider;
    BuildProviderFacts(c);
    RunKeepsNumbered(Fresh(c, bus).value, xs);
  }
}
