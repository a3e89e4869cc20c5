/** The engine object: fields updated per candle, proved against the engine's step function. */
module RenkoCharting {
  import opened Common
  import opened PlainValue
  import opened RenkoModels
  import opened RenkoCodec
  import opened RenkoProviders
  import opened BrickSizeProviders
  import opened RenkoEngine
  import opened RenkoHistory
  import opened RenkoSnapshot
  import opened RenkoResume

  /** The hybrid builder carries a sequence number; the traditional one nothing. */
  class HybridBrickBuilder {
    var sequence: int

    constructor ()
      ensures sequence == 0
    {
      sequence := 0;
    }

    method BuildBrick(m: Move, c: BrickConfiguration) returns (brick: Brick)
      modifies this
      ensures (HybridBuilder(sequence), brick) == Build(HybridBuilder(old(sequence)), m, c)
    {
      var base := TraditionalBrick(m, c);
      sequence := sequence + 1;
      brick := base.(id := HybridId(sequence, base.id),
                     metadata := base.metadata[BUILDER_TYPE := Str(Literal("hybrid"))]
                                              [OfMetadata(HybridSequence) := Int(sequence)]);
    }
  }

  datatype BrickBuilder = TraditionalBricks | HybridBricks(hybrid: HybridBrickBuilder) {
    ghost function Parts(): set<object> {
      match this
      case TraditionalBricks => {}
      case HybridBricks(h) => {h}
    }

    function View(): Builder
      reads if HybridBricks? then {hybrid} else {}
    {
      match this
      case TraditionalBricks => TraditionalBuilder
      case HybridBricks(h) => HybridBuilder(h.sequence)
    }
  }

  class TraditionalRenkoEngine {
    var configuration: Option<BrickConfiguration>
    var state: Option<BrickState>
    var builder: BrickBuilder
    var history: seq<Brick>
    var pendingOpen: Option<real>
    var boundary: Option<real>
    const injected: Option<SizeProvider>
    var provider: Option<SizeProvider>
    var publishedSize: Option<real>
    const bus: bool
    var events: seq<Event>

    ghost function Parts(): set<object>
      reads this
    {
      builder.Parts() + if provider.Some? then provider.value.Parts() else {}
    }

    ghost function View(): Engine
      reads this, Parts()
    {
      Engine(configuration, state, builder.View(), history, pendingOpen, boundary,
             if provider.Some? then Some(provider.value.View()) else None, publishedSize, bus, events)
    }

    ghost predicate Valid()
      reads this, Parts()
    {
      && this !in Parts()
      && (provider.Some? ==> provider.value.View().Valid())
      && (provider.Some? ==> builder.Parts() !! provider.value.Parts())
    }

    constructor (builder: BrickBuilder, provider: Option<SizeProvider>, bus: bool)
      requires provider.Some? ==> provider.value.View().Valid() && builder.Parts() !! provider.value.Parts()
      ensures Valid() && this.builder == builder && this.provider == provider && injected == provider
      ensures View() == NewEngine(builder.View(), bus).(provider := if provider.Some? then Some(provider.value.View()) else None)
    {
      this.builder, this.provider, this.injected, this.bus := builder, provider, provider, bus;
      configuration, state, history, pendingOpen, boundary := None, None, [], None, None;
      publishedSize, events := None, [];
    }

    method Configure(c: BrickConfiguration) returns (outcome: Outcome)
      requires Valid() && (injected.Some? ==> provider == injected)
      modifies this
      ensures Valid() && builder == old(builder)
      ensures (View(), outcome) ==
              RenkoEngine.Configure(old(View()), c, if injected.Some? then old(View()).provider else None)
    {
      configuration := Some(c);
      if injected.None? {
        if c.brickSize <= 0.0 {
          return Raised(InvalidSize);
        }
        provider := Some(FixedSize(c.brickSize));
      }
      publishedSize := None;
      state := Some(BrickState(Neutral, 0.0, c.brickSize, false, map[]));
      outcome := Done;
    }

    method Start(now: int)
      requires Valid() && configuration.Some?
      modifies this`state
      ensures Valid() && View() == RenkoEngine.Start(old(View()), now)
    {
      state := Some(BrickState(Neutral, 0.0, configuration.value.brickSize, true,
                               map[OfMetadata(StartedAt) := Str(Iso(now))]));
    }

    method MaybePublishSizeUpdate(size: real)
      requires Valid() && configuration.Some?
      modifies this`publishedSize, this`events
      ensures Valid() && View() == PublishSize(old(View()), size)
    {
      if !bus || publishedSize == Some(size) {
        return;
      }
      publishedSize := Some(size);
      events := events + [SizeUpdated(configuration.value.ResolvedProvider(), size)];
    }

    /** The loop that climbs from one price to the next, one brick height at a time. */
    method CreateBricks(start: real, size: real, d: Trend, steps: int, timestamp: int, first: EventKind)
      returns (moves: seq<Move>)
      ensures moves == Ladder(start, size, d, RungCount(steps), timestamp, first)
    {
      moves := [];
      var open := start;
      var step := 1;
      assert Stacked(0, size) == 0.0;
      while step <= steps
        invariant 1 <= step <= RungCount(steps) + 1 && |moves| == step - 1
        invariant open == Level(start, size, d, step - 1)
        invariant forall k | 0 <= k < step - 1 ::
                    moves[k] == Rung(start, size, d, k, timestamp, if k == 0 then first else BrickExtended)
      {
        var close := if d == Up then open + size else open - size;
        assert Stacked(step, size) == Stacked(step - 1, size) + size;
        moves := moves + [Move(d, open, close, Max(open, close), Min(open, close), 0.0, timestamp,
                               if step == 1 then first else BrickExtended)];
        open := close;
        step := step + 1;
      }
    }

    /** Bricks for a price; when there are none the state has moved on, or a zero size has raised. */
    method GenerateBricksFromPrice(price: real, timestamp: int, size: real)
      returns (moves: seq<Move>, raised: bool)
      requires Valid() && state.Some?
      modifies this`state
      ensures Valid()
      ensures match PlanBricks(old(state).value, history == [], price, timestamp, size)
              case Division => raised && moves == [] && state == old(state)
              case Idle(next) => !raised && moves == [] && state == Some(next)
              case Climb(climb) => !raised && moves == climb && state == old(state)
    {
      moves, raised := [], false;
      var last := state.value.lastPrice;
      var direction := state.value.direction;
      if direction == Neutral {
        var initial := InitialDirection(price, last, size);
        if initial.None? {
          state := Some(BrickState(Neutral, price, size, true, state.value.metadata));
          return;
        }
        direction := initial.value;
      }
      var movement := price - last;
      if size == 0.0 {
        return [], true;
      }
      var steps := Steps(movement, size);
      if steps == 0 {
        state := Some(BrickState(direction, price, size, true, state.value.metadata));
        return;
      }
      var trend := if movement > 0.0 then Up else Down;
      if direction != trend && Abs(movement) >= 2.0 * size {
        moves := CreateBricks(last, size, trend, steps, timestamp, BrickReversed);
      } else if direction == trend {
        moves := CreateBricks(last, size, direction, steps, timestamp,
                              if history == [] then BrickOpened else BrickExtended);
      } else {
        state := Some(BrickState(direction, price, size, true, state.value.metadata));
      }
    }

    /** Fast path: no builder, no events, one state at the end. */
    method AppendTraditionalBricksFast(moves: seq<Move>, size: real)
      requires Valid() && configuration.Some?
      modifies this`history, this`state
      ensures Valid() && View() == AppendFast(old(View()), moves, size)
    {
      hide TraditionalBrick, StateAfter;
      var i := 0;
      var c := configuration.value;
      ghost var before := history;
      while i < |moves|
        invariant 0 <= i <= |moves|
        invariant history == before + seq(i, k requires 0 <= k < i => TraditionalBrick(moves[k], c))
        invariant Valid() && View() == old(View()).(history := history)
      {
        history := history + [TraditionalBrick(moves[i], c)];
        i := i + 1;
      }
      if moves != [] {
        state := Some(StateAfter(history[|history| - 1], size));
      }
    }

    /** Builder path, one brick. */
    method AppendBuiltBrick(m: Move, size: real)
      requires Valid() && configuration.Some? && state.Some?
      modifies this`history, this`state, this`events, builder.Parts()
      ensures Valid() && View() == AddBrick(old(View()), m, size) && state.Some?
      ensures builder == old(builder) && provider == old(provider) && configuration == old(configuration)
    {
      hide TraditionalBrick, StateAfter, Provider.Valid, SizeProvider.View;
      var brick;
      match builder {
        case TraditionalBricks => brick := TraditionalBrick(m, configuration.value);
        case HybridBricks(h) => brick := h.BuildBrick(m, configuration.value);
      }
      history := history + [brick];
      if bus {
        events := events + [BrickEvent(m.event, state.value, |history|,
                                       if m.event.BrickOpened? then None else Some(brick))];
        state := Some(StateAfter(brick, size));
      }
    }

    method AppendBuiltBricks(moves: seq<Move>, size: real)
      requires Valid() && configuration.Some? && state.Some?
      modifies this, builder.Parts()
      ensures Valid() && View() == BuildAll(old(View()), moves, size)
      ensures builder == old(builder) && provider == old(provider)
    {
      hide AddBrick;
      var i := 0;
      ghost var before := View();
      while i < |moves|
        invariant 0 <= i <= |moves|
        invariant Valid() && configuration == old(configuration) && state.Some?
        invariant builder == old(builder) && provider == old(provider)
        invariant View() == AddBricks(before, moves[..i], size)
      {
        assert moves[..i + 1][..i] == moves[..i];
        AppendBuiltBrick(moves[i], size);
        i := i + 1;
      }
      assert moves[..i] == moves;
      if moves != [] && !bus {
        state := Some(StateAfter(history[|history| - 1], size));
      }
    }

    method ProcessMarketData(x: Input) returns (outcome: Outcome)
      requires Valid()
      modifies this, Parts()
      ensures Valid() && (View(), outcome) == Process(old(View()), x)
      ensures builder == old(builder) && provider == old(provider)
    {
      hide PlanBricks, AppendFast, BuildAll, PublishSize, Provider.Update;
      if configuration.None? {
        return Raised(NotConfigured);
      }
      if provider.None? {
        return Raised(NoProvider);
      }
      if state.None? || !state.value.isOpen {
        Start(x.now);
      }
      ghost var started := View();
      assert started == EnsureStarted(old(View()), x.now);
      ghost var fed := started.provider.value.Update(x.candle);
      if fed.Some? {
        UpdateKeepsParameters(started.provider.value, x.candle);
      }
      var ok := provider.value.Update(x.candle);
      if !ok {
        assert View() == started;
        return Raised(NoPriceField);
      }
      ghost var given := View();
      assert given == started.(provider := fed);
      outcome := ChartCandle(x.candle);
    }

    /** The rest of the step, with the provider up to date. */
    method ChartCandle(c: Candle) returns (outcome: Outcome)
      requires Valid() && configuration.Some? && provider.Some? && state.Some?
      modifies this, builder.Parts()
      ensures Valid() && (View(), outcome) == Chart(old(View()), c)
      ensures builder == old(builder) && provider == old(provider)
    {
      hide PlanBricks, AppendFast, BuildAll, PublishSize, Provider.Update, Provider.Valid, Provider.Size, SelectPrice;
      var available := provider.value.CurrentSize();
      if available.None? {
        return Done;
      }
      var size := available.value;
      MaybePublishSizeUpdate(size);
      PublishSizeFrame(old(View()), size);
      var price := SelectPrice(c, configuration.value.priceSource);
      if price.None? {
        return Raised(MissingField);
      }
      if pendingOpen.None? {
        pendingOpen, boundary := price, price;
        state := Some(BrickState(Neutral, price.value, size, true, map[OfMetadata(AnchorPrice) := Num(price.value)]));
        return Done;
      }
      outcome := ChartPrice(price.value, c.timestamp, size);
    }

    /** Plans the bricks to a price and appends them. */
    method ChartPrice(price: real, timestamp: int, size: real) returns (outcome: Outcome)
      requires Valid() && configuration.Some? && state.Some?
      modifies this, builder.Parts()
      ensures Valid() && builder == old(builder) && provider == old(provider)
      ensures (View(), outcome)
              == Follow(old(View()), PlanBricks(old(state).value, old(history) == [], price, timestamp, size), size)
    {
      hide PlanBricks, AppendFast, BuildAll, Provider.Valid;
      var moves, raised := GenerateBricksFromPrice(price, timestamp, size);
      if raised {
        return Raised(ZeroBrickSize);
      }
      outcome := Done;
      if moves != [] {
        if !bus && builder.TraditionalBricks? {
          AppendTraditionalBricksFast(moves, size);
        } else {
          AppendBuiltBricks(moves, size);
        }
      }
    }

    method Reset()
      requires Valid()
      modifies this, Parts()
      ensures Valid() && builder == old(builder) && provider == old(provider)
      ensures View() == NewEngine(old(View()).builder, bus).(
                          provider := if provider.Some? then Some(old(View()).provider.value.Reset()) else None,
                          events := old(events))
    {
      hide Provider.Reset, Provider.Valid;
      configuration, state, history, pendingOpen, boundary, publishedSize := None, None, [], None, None, None;
      if provider.Some? {
        ResetIsStable(provider.value.View());
        provider.value.Reset();
      }
    }

    /** snapshot(): None stands for the error of an unconfigured engine. */
    method TakeSnapshot() returns (s: Option<EngineState>)
      requires Valid()
      ensures s == Snapshot(View())
    {
      if configuration.None? {
        return None;
      }
      var items: seq<map<Key, Value>> := [];
      var i := 0;
      while i < |history|
        invariant 0 <= i <= |history|
        invariant items == EncodeHistory(history[..i])
      {
        assert history[..i + 1] == history[..i] + [history[i]];
        items := items + [BrickToDict(history[i])];
        i := i + 1;
      }
      assert history[..i] == history;
      var providerState: map<Key, Value> := map[];
      if provider.Some? {
        providerState := provider.value.ExportState();
      }
      var runtime := map[OfRuntime(State) := if state.Some? then Dict(StateToDict(state.value)) else Null,
                         OfRuntime(PendingOpen) := FromReal(pendingOpen),
                         OfRuntime(Boundary) := FromReal(boundary),
                         OfRuntime(PublishedSize) := FromReal(publishedSize)];
      s := Some(EngineState(
        SCHEMA_VERSION, ENGINE_TYPE, ConfigurationToDict(configuration.value), builder.View().Export(), items,
        providerState, map[],
        map[OfRuntime(BrickCount) := Int(|history|), OfRuntime(EngineRuntime) := Dict(runtime)]));
    }

    /** restore(): check the snapshot and the live components, then take over component by component;
        what does not convert stops it there. */
    method RestoreState(s: EngineState) returns (failure: Option<SnapshotError>)
      requires Valid()
      modifies this, Parts()
      ensures Valid() && builder == old(builder) && provider == old(provider)
      ensures match RestoreInto(old(View()), s)
              case Ok(restored) => failure.None? && View() == restored
              case Err(error) => failure == Some(error)
    {
      hide ComponentsMatch, Validate, Provider.Valid, Rebuild;
      var c := Validate(s);
      if c.Err? {
        return Some(c.error);
      }
      if !LiveComponentsMatch(c.value) {
        return Some(Incompatible);
      }
      var ok := Take(c.value, s);
      failure := if ok then None else Some(Corrupted);
    }

    method Take(c: BrickConfiguration, s: EngineState) returns (ok: bool)
      requires Valid()
      modifies this, Parts()
      ensures Valid() && builder == old(builder) && provider == old(provider)
      ensures Rebuild(old(View()), c, s) == if ok then Ok(View()) else Err(Corrupted)
    {
      hide Provider.Import, Provider.Valid, ImportProvider, Builder.Import, RenkoSnapshot.Reinstate;
      configuration := Some(c);
      ok := ImportComponents(s);
      if ok {
        ok := Reinstate(s);
      }
    }

    /** The history, then the runtime. */
    method Reinstate(s: EngineState) returns (ok: bool)
      requires Valid()
      modifies this`history, this`state, this`pendingOpen, this`boundary, this`publishedSize
      ensures Valid()
      ensures RenkoSnapshot.Reinstate(old(View()), s) == if ok then Ok(View()) else Err(Corrupted)
    {
      hide DecodeHistory, DecodeState, ToReal, Provider.Valid;
      var bricks := DecodeHistory(s.brickHistory);
      if bricks.None? {
        return false;
      }
      history := bricks.value;
      ok := RestoreRuntime(Field(s.metadata, OfRuntime(EngineRuntime), Dict(map[])));
    }

    predicate LiveComponentsMatch(c: BrickConfiguration)
      reads this, Parts()
      ensures LiveComponentsMatch(c) == ComponentsMatch(View(), c)
    {
      && (provider.Some? ==> provider.value.Name() == c.ResolvedProvider())
      && c.ResolvedBuilder() == Some(builder.View().Name())
      && (provider.Some? && provider.value.StrategyInUse().Some? ==> provider.value.StrategyInUse().value == c.ResolvedStrategy())
    }

    /** The provider's state, then the builder's. */
    method ImportComponents(s: EngineState) returns (ok: bool)
      requires Valid()
      modifies Parts()
      ensures Valid()
      ensures var before := old(View());
              && ok == (ImportProvider(before.provider, s.providerState).Some? && before.builder.Import(s.builderState).Some?)
              && (ok ==> View() == before.(provider := ImportProvider(before.provider, s.providerState).value,
                                           builder := before.builder.Import(s.builderState).value))
    {
      hide Provider.Import, Provider.Valid, Provider.Reset;
      ok := true;
      if provider.Some? {
        ResetIsStable(provider.value.View());
        ok := provider.value.ImportState(s.providerState);
        ResetIsStable(provider.value.View());
        if !ok {
          return;
        }
      }
      match builder
      case TraditionalBricks =>
      case HybridBricks(h) =>
        var n := Field(s.builderState, OfPart(PartField.Sequence), Int(0));
        if !n.Int? {
          return false;
        }
        h.sequence := n.n;
    }

    method RestoreRuntime(runtime: Value) returns (ok: bool)
      modifies this`state, this`pendingOpen, this`boundary, this`publishedSize
      ensures ok <==>
              && runtime.Dict?
              && DecodeState(Field(runtime.entries, OfRuntime(State), Null)).Some?
              && ToReal(Field(runtime.entries, OfRuntime(PendingOpen), Null)).Some?
              && ToReal(Field(runtime.entries, OfRuntime(Boundary), Null)).Some?
              && ToReal(Field(runtime.entries, OfRuntime(PublishedSize), Null)).Some?
      ensures ok ==>
              && state == DecodeState(Field(runtime.entries, OfRuntime(State), Null)).value
              && pendingOpen == ToReal(Field(runtime.entries, OfRuntime(PendingOpen), Null)).value
              && boundary == ToReal(Field(runtime.entries, OfRuntime(Boundary), Null)).value
              && publishedSize == ToReal(Field(runtime.entries, OfRuntime(PublishedSize), Null)).value
    {
      hide DecodeState, ToReal;
      if !runtime.Dict? {
        return false;
      }
      var stored := DecodeState(Field(runtime.entries, OfRuntime(State), Null));
      var pending := ToReal(Field(runtime.entries, OfRuntime(PendingOpen), Null));
      var last := ToReal(Field(runtime.entries, OfRuntime(Boundary), Null));
      var published := ToReal(Field(runtime.entries, OfRuntime(PublishedSize), Null));
      if stored.None? || pending.None? || last.None? || published.None? {
        return false;
      }
      state, pendingOpen, boundary, publishedSize := stored.value, pending.value, last.value, published.value;
      ok := true;
    }
  }

  /** A blank engine over components from the registries. */
  method WireEngine(c: BrickConfiguration, bus: bool) returns (engine: Option<TraditionalRenkoEngine>)
    requires BuilderNamed(c.ResolvedBuilder()).Some?
    ensures engine.Some? <==> BuildProvider(c).Some?
    ensures engine.Some? ==>
              && fresh(engine.value) && fresh(engine.value.Parts()) && engine.value.Valid()
              && engine.value.View() == NewEngine(BuilderNamed(c.ResolvedBuilder()).value, bus).(provider := BuildProvider(c))
  {
    hide BuildProvider, BuilderNamed, Provider.Valid, Provider.Reset, BrickConfiguration.ResolvedBuilder;
    var p := BuildProvider(c);
    if p.None? {
      return None;
    }
    BuildProviderFacts(c);
    var provider := CreateProvider(p.value);
    var builder := TraditionalBricks;
    if BuilderNamed(c.ResolvedBuilder()).value.HybridBuilder? {
      var h := new HybridBrickBuilder();
      builder := HybridBricks(h);
    }
    FreshBuilder(c.ResolvedBuilder());
    var wired := new TraditionalRenkoEngine(builder, Some(provider), bus);
    engine := Some(wired);
  }

  /** SnapshotManager.restore: build the components the snapshot names, wire an engine, restore. */
  method RestoreEngine(s: EngineState, bus: bool) returns (r: Result<TraditionalRenkoEngine, SnapshotError>)
    ensures r.Ok? ==> fresh(r.value) && r.value.Valid() && Restore(s, bus) == Ok(r.value.View())
    ensures r.Err? ==> Restore(s, bus) == Err(r.error)
  {
    hide BuildProvider, BuilderNamed, RestoreInto, Validate, Registered, NewEngine, BrickConfiguration.ResolvedBuilder;
    hide TraditionalRenkoEngine.View, TraditionalRenkoEngine.Valid, TraditionalRenkoEngine.Parts;
    var c := Validate(s);
    if c.Err? {
      return Err(c.error);
    }
    if !Registered(c.value) {
      return Err(Incompatible);
    }
    RegisteredBuilder(c.value);
    var engine := WireEngine(c.value, bus);
    if engine.None? {
      return Err(Refused);
    }
    var failure := engine.value.RestoreState(s);
    r := if failure.Some? then Err(failure.value) else Ok(engine.value);
  }

  lemma RegisteredBuilder(c: BrickConfiguration)
    requires Registered(c)
    ensures BuilderNamed(c.ResolvedBuilder()).Some?
  {
  }

  lemma FreshBuilder(name: Option<string>)
    requires BuilderNamed(name).Some?
    ensures BuilderNamed(name).value in {TraditionalBuilder, HybridBuilder(0)}
  {
  }
}
