/** The traditional renko engine as a function of its state: what one candle does. */
module RenkoEngine {
  import opened Common
  import opened PlainValue
  import opened RenkoModels
  import opened RenkoCodec
  import opened RenkoProviders

  // ---- bricks ----------------------------------------------------------------

  datatype EventKind = BrickOpened | BrickExtended | BrickReversed

  /** One brick about to be built, as the engine hands it to the builder. */
  datatype Move = Move(direction: Trend, open: real, close: real, high: real, low: real,
                       volume: real, timestamp: int, event: EventKind)

  datatype Builder = TraditionalBuilder | HybridBuilder(sequence: int) {
    function Name(): string {
      match this
      case TraditionalBuilder => "traditional"
      case HybridBuilder(_) => "hybrid"
    }

    function Export(): map<Key, Value> {
      match this
      case TraditionalBuilder => map[]
      case HybridBuilder(n) => map[OfPart(PartField.Sequence) := Int(n)]
    }

    function Import(data: map<Key, Value>): Option<Builder> {
      match this
      case TraditionalBuilder => Some(this)
      case HybridBuilder(_) =>
        var n := Field(data, OfPart(PartField.Sequence), Int(0));
        if n.Int? then Some(HybridBuilder(n.n)) else None
    }
  }

  function BrickMetadata(c: BrickConfiguration): map<Key, Value> {
    map[OfMetadata(MetaField.BrickSize) := Num(c.brickSize),
        OfMetadata(MetaField.PriceSource) := Str(Literal(ChartPriceText(c.priceSource)))]
  }

  function TraditionalId(m: Move): Text {
    BrickId(TrendText(m.direction), m.timestamp, Truncate(m.open * 100000.0), Truncate(m.close * 100000.0))
  }

  function TraditionalBrick(m: Move, c: BrickConfiguration): Brick {
    Brick(TraditionalId(m), m.direction, m.open, m.close, m.high, m.low, m.volume, m.timestamp, BrickMetadata(c))
  }

  /** build_brick: the builder afterwards and the brick. */
  function Build(b: Builder, m: Move, c: BrickConfiguration): (Builder, Brick) {
    var base := TraditionalBrick(m, c);
    match b
    case TraditionalBuilder => (b, base)
    case HybridBuilder(n) =>
      (HybridBuilder(n + 1),
       base.(id := HybridId(n + 1, base.id),
             metadata := base.metadata[BUILDER_TYPE := Str(Literal("hybrid"))]
                                      [OfMetadata(HybridSequence) := Int(n + 1)]))
  }

  function BuilderNamed(name: Option<string>): Option<Builder> {
    if name == Some("traditional") then Some(TraditionalBuilder)
    else if name == Some("hybrid") then Some(HybridBuilder(0))
    else None
  }

  // ---- the engine state ---------------------------------------------------------

  datatype Event =
    | SizeUpdated(provider: string, size: real)
    | BrickEvent(kind: EventKind, state: BrickState, brickCount: nat, brick: Option<Brick>)

  /** The engine's fields. `bus` says whether an event bus is attached; `events` is
      what has been published on it. */
  datatype Engine = Engine(
    configuration: Option<BrickConfiguration>,
    state: Option<BrickState>,
    builder: Builder,
    history: seq<Brick>,
    pendingOpen: Option<real>,
    boundary: Option<real>,
    provider: Option<Provider>,
    publishedSize: Option<real>,
    bus: bool,
    events: seq<Event>)

  datatype Fault = NotConfigured | NoProvider | NoPriceField | MissingField | ZeroBrickSize | InvalidSize

  datatype Outcome = Done | Raised(fault: Fault)

  /** A candle, and the wall-clock time at which it is processed. */
  datatype Input = Input(candle: Candle, now: int)

  /** start(): a neutral, open state. */
  function Start(e: Engine, now: int): Engine
    requires e.configuration.Some?
  {
    e.(state := Some(BrickState(Neutral, 0.0, e.configuration.value.brickSize, true,
                                map[OfMetadata(StartedAt) := Str(Iso(now))])))
  }

  function EnsureStarted(e: Engine, now: int): (r: Engine)
    requires e.configuration.Some?
    ensures r.state.Some?
  {
    if e.state.None? || !e.state.value.isOpen then Start(e, now) else e
  }

  function PublishSize(e: Engine, size: real): Engine
    requires e.configuration.Some?
  {
    if !e.bus || e.publishedSize == Some(size) then e
    else e.(publishedSize := Some(size),
            events := e.events + [SizeUpdated(e.configuration.value.ResolvedProvider(), size)])
  }

  function Anchor(e: Engine, price: real, size: real): Engine {
    e.(pendingOpen := Some(price), boundary := Some(price),
       state := Some(BrickState(Neutral, price, size, true, map[OfMetadata(AnchorPrice) := Num(price)])))
  }

  // ---- from a price to bricks ------------------------------------------------------

  /** n bricks of height `size` in direction d, one after the other from `open`. */
  function Ladder(open: real, size: real, d: Trend, n: nat, timestamp: int, first: EventKind): (r: seq<Move>)
    ensures |r| == n
  {
    seq(n, k requires 0 <= k < n => Rung(open, size, d, k, timestamp, if k == 0 then first else BrickExtended))
  }

  /** The k-th of them lies exactly k brick heights away from the start. */
  function Rung(open: real, size: real, d: Trend, k: nat, timestamp: int, event: EventKind): Move {
    var near, far := Level(open, size, d, k), Level(open, size, d, k + 1);
    Move(d, near, far, Max(near, far), Min(near, far), 0.0, timestamp, event)
  }

  function Level(open: real, size: real, d: Trend, k: nat): real {
    if d == Up then open + Stacked(k, size) else open - Stacked(k, size)
  }

  /** The height of k bricks. */
  function Stacked(k: nat, size: real): real {
    if k == 0 then 0.0 else Stacked(k - 1, size) + size
  }

  /** What a price does: leave a new state, or start a ladder of bricks. */
  datatype Plan = Idle(state: BrickState) | Climb(moves: seq<Move>) | Division

  function InitialDirection(price: real, last: real, size: real): Option<Trend> {
    if price - last >= size then Some(Up)
    else if last - price >= size then Some(Down)
    else None
  }

  function Steps(move: real, size: real): int
    requires size != 0.0
  {
    (Abs(move) / size).Floor
  }

  function PlanBricks(s: BrickState, noBricks: bool, price: real, timestamp: int, size: real): Plan {
    var chosen := if s.direction == Neutral then InitialDirection(price, s.lastPrice, size) else Some(s.direction);
    if chosen.None? then Idle(BrickState(Neutral, price, size, true, s.metadata))
    else
      var direction := chosen.value;
      var move := price - s.lastPrice;
      if size == 0.0 then Division
      else
        var steps := Steps(move, size);
        var trend := if move > 0.0 then Up else Down;
        if steps == 0 then Idle(BrickState(direction, price, size, true, s.metadata))
        else if direction != trend && Abs(move) >= 2.0 * size then
          Climb(Ladder(s.lastPrice, size, trend, RungCount(steps), timestamp, BrickReversed))
        else if direction == trend then
          Climb(Ladder(s.lastPrice, size, direction, RungCount(steps), timestamp,
                       if noBricks then BrickOpened else BrickExtended))
        else Idle(BrickState(direction, price, size, true, s.metadata))
  }

  /** range(1, steps + 1) is empty for a negative count. */
  function RungCount(steps: int): nat {
    if steps < 0 then 0 else steps
  }

  // ---- applying the bricks ------------------------------------------------------------

  function StateAfter(b: Brick, size: real): BrickState {
    BrickState(b.direction, b.close, size, true, map[OfMetadata(LastBrickId) := Str(b.id)])
  }

  /** Builder path, one brick: build, append and, if a bus is attached, publish and advance. */
  function AddBrick(e: Engine, m: Move, size: real): Engine
    requires e.configuration.Some? && e.state.Some?
  {
    var (builder, brick) := Build(e.builder, m, e.configuration.value);
    var grown := e.(builder := builder, history := e.history + [brick]);
    if !e.bus then grown
    else grown.(events := e.events + [BrickEvent(m.event, e.state.value, |grown.history|,
                                                 if m.event.BrickOpened? then None else Some(brick))],
                state := Some(StateAfter(brick, size)))
  }

  function AddBricks(e: Engine, moves: seq<Move>, size: real): (r: Engine)
    requires e.configuration.Some? && e.state.Some?
    ensures r.configuration == e.configuration && r.state.Some? && |r.history| == |e.history| + |moves|
    ensures r.provider == e.provider && r.bus == e.bus
  {
    if moves == [] then e
    else AddBrick(AddBricks(e, moves[..|moves| - 1], size), moves[|moves| - 1], size)
  }

  /** Builder path: without a bus the state is set once, from the last brick. */
  function BuildAll(e: Engine, moves: seq<Move>, size: real): Engine
    requires e.configuration.Some? && e.state.Some?
  {
    var built := AddBricks(e, moves, size);
    if e.bus || moves == [] then built
    else built.(state := Some(StateAfter(built.history[|built.history| - 1], size)))
  }

  /** Fast path: traditional bricks appended directly, one state at the end. */
  function AppendFast(e: Engine, moves: seq<Move>, size: real): Engine
    requires e.configuration.Some?
  {
    var bricks := seq(|moves|, i requires 0 <= i < |moves| => TraditionalBrick(moves[i], e.configuration.value));
    if bricks == [] then e
    else e.(history := e.history + bricks, state := Some(StateAfter(bricks[|bricks| - 1], size)))
  }

  function ApplyMoves(e: Engine, moves: seq<Move>, size: real): Engine
    requires e.configuration.Some? && e.state.Some?
  {
    if moves == [] then e
    else if !e.bus && e.builder.TraditionalBuilder? then AppendFast(e, moves, size)
    else BuildAll(e, moves, size)
  }

  // ---- process_market_data ---------------------------------------------------------------

  predicate Wired(e: Engine) {
    e.configuration.Some? && e.provider.Some? && e.provider.value.Valid()
  }

  /** Carry out a plan. */
  function Follow(e: Engine, plan: Plan, size: real): (Engine, Outcome)
    requires e.configuration.Some? && e.state.Some?
  {
    match plan
    case Division => (e, Raised(ZeroBrickSize))
    case Idle(state) => (e.(state := Some(state)), Done)
    case Climb(moves) => (ApplyMoves(e, moves, size), Done)
  }

  /** The step once the provider has taken the candle in. */
  function Chart(e: Engine, c: Candle): (Engine, Outcome)
    requires Wired(e) && e.state.Some?
  {
    if !e.provider.value.Ready() then (e, Done)
    else
      var size := e.provider.value.Size().value;
      var told := PublishSize(e, size);
      var price := SelectPrice(c, e.configuration.value.priceSource);
      if price.None? then (told, Raised(MissingField))
      else if told.pendingOpen.None? then (Anchor(told, price.value, size), Done)
      else Follow(told, PlanBricks(told.state.value, told.history == [], price.value, c.timestamp, size), size)
  }

  function Process(e: Engine, x: Input): (Engine, Outcome)
    requires e.provider.Some? ==> e.provider.value.Valid()
  {
    if e.configuration.None? then (e, Raised(NotConfigured))
    else if e.provider.None? then (e, Raised(NoProvider))
    else
      var started := EnsureStarted(e, x.now);
      var fed := started.provider.value.Update(x.candle);
      if fed.None? then (started, Raised(NoPriceField))
      else
        UpdateKeepsParameters(started.provider.value, x.candle);
        Chart(started.(provider := fed), x.candle)
  }

  // ---- runs -----------------------------------------------------------------------------------

  /** What no step after the provider's update touches. */
  predicate SameSetup(e: Engine, r: Engine) {
    r.configuration == e.configuration && r.bus == e.bus && r.provider == e.provider && r.state.Some?
  }

  lemma FollowKeepsSetup(e: Engine, plan: Plan, size: real)
    requires e.configuration.Some? && e.state.Some?
    ensures SameSetup(e, Follow(e, plan, size).0)
  {
  }

  lemma ChartKeepsSetup(e: Engine, c: Candle)
    requires Wired(e) && e.state.Some?
    ensures SameSetup(e, Chart(e, c).0)
  {
    if e.provider.value.Ready() {
      var size := e.provider.value.Size().value;
      var told := PublishSize(e, size);
      var price := SelectPrice(c, e.configuration.value.priceSource);
      if price.Some? && told.pendingOpen.Some? {
        FollowKeepsSetup(told, PlanBricks(told.state.value, told.history == [], price.value, c.timestamp, size), size);
      }
    }
  }

  lemma ProcessKeepsWired(e: Engine, x: Input)
    requires Wired(e)
    ensures var r := Process(e, x).0;
            && Wired(r) && r.configuration == e.configuration && r.bus == e.bus
            && r.provider.value.Reset() == e.provider.value.Reset()
            && r.state.Some?
  {
    var started := EnsureStarted(e, x.now);
    var fed := started.provider.value.Update(x.candle);
    if fed.Some? {
      UpdateKeepsParameters(started.provider.value, x.candle);
      ChartKeepsSetup(started.(provider := fed), x.candle);
    }
  }

  /** A session: one candle after another; a candle that raises leaves what it left. */
  function Run(e: Engine, xs: seq<Input>): (r: Engine)
    requires Wired(e)
    ensures Wired(r) && r.configuration == e.configuration && r.bus == e.bus
    ensures r.provider.value.Reset() == e.provider.value.Reset()
  {
    if xs == [] then e
    else
      var before := Run(e, xs[..|xs| - 1]);
      ProcessKeepsWired(before, xs[|xs| - 1]);
      Process(before, xs[|xs| - 1]).0
  }

  lemma {:induction false} RunSplits(e: Engine, xs: seq<Input>, ys: seq<Input>)
    requires Wired(e)
    ensures Run(e, xs + ys) == Run(Run(e, xs), ys)
  {
    if ys == [] {
      assert xs + ys == xs;
    } else {
      var n := |ys| - 1;
      RunSplits(e, xs, ys[..n]);
      assert (xs + ys)[..|xs + ys| - 1] == xs + ys[..n];
    }
  }

  /** configure(): an injected provider wins; the default is a fixed one of the configured
      size, which must be positive. */
  function Configure(e: Engine, c: BrickConfiguration, injected: Option<Provider>): (Engine, Outcome) {
    var marked := e.(configuration := Some(c));
    if injected.None? && c.brickSize <= 0.0 then (marked, Raised(InvalidSize))
    else
      (marked.(provider := Some(injected.GetOr(Fixed(c.brickSize))),
               publishedSize := None,
               state := Some(BrickState(Neutral, 0.0, c.brickSize, false, map[]))), Done)
  }

  /** An engine object with nothing done to it yet. */
  function NewEngine(builder: Builder, bus: bool): Engine {
    Engine(None, None, builder, [], None, None, None, None, bus, [])
  }

  /** An engine wired by the factory for a configuration, and configured. */
  function Fresh(c: BrickConfiguration, bus: bool): Option<Engine> {
    var provider, builder := BuildProvider(c), BuilderNamed(c.ResolvedBuilder());
    if provider.None? || builder.None? then None
    else Some(Configure(NewEngine(builder.value, bus), c, provider).0)
  }
}
