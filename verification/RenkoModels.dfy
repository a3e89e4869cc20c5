/** The chart/renko value types: candles, bricks, engine state and configuration. */
module RenkoModels {
  import opened Common
  import opened PlainValue

  datatype Trend = Up | Down | Neutral {
    function Opposite(): Trend {
      match this
      case Up => Down
      case Down => Up
      case Neutral => Neutral
    }
  }

  const BUILDER_TYPE: Key := OfMetadata(MetaField.BuilderType)

  /** A market-data mapping; a price field the feed omits is None. */
  datatype Candle = Candle(open: Option<real>, high: Option<real>, low: Option<real>,
                           close: Option<real>, timestamp: int)

  datatype BrickState = BrickState(direction: Trend, lastPrice: real, brickSize: real,
                                   isOpen: bool, metadata: map<Key, Value>)

  datatype Brick = Brick(id: Text, direction: Trend, open: real, close: real, high: real,
                         low: real, volume: real, createdAt: int, metadata: map<Key, Value>)

  datatype BrickKind = Traditional | AverageTrueRange | Percentage | Mean | Median | Hybrid | Ai

  datatype ChartPrice = FromOpen | FromHigh | FromLow | FromClose | FromTypical

  datatype RunMode = Live | Replay | Backtest

  datatype SizingPrice = RefClose | RefOpen | RefHigh | RefLow | RefTypical | RefMedian

  datatype RoundingMode = NoRounding | HalfUp | FloorDown | CeilUp

  datatype BrickConfiguration = BrickConfiguration(
    brickType: BrickKind,
    brickSize: real,
    priceSource: ChartPrice,
    mode: RunMode,
    atrPeriod: Option<int>,
    atrMultiplier: Option<real>,
    provider: Option<string>,
    builder: Option<string>,
    builderType: Option<string>,
    percentage: Option<real>,
    referencePrice: Option<SizingPrice>,
    referenceStrategy: Option<string>,
    minimumSize: Option<real>,
    rounding: RoundingMode,
    meanLookback: Option<int>,
    medianLookback: Option<int>,
    hybridWeight: Option<real>,
    aiModel: Option<string>,
    adaptiveWindow: Option<int>,
    adaptiveThresholds: Option<seq<real>>,
    adaptiveHysteresis: Option<real>,
    metadata: map<Key, Value>)
  {
    function ResolvedProvider(): string {
      if Given(provider) then provider.value
      else if brickType.AverageTrueRange? then "atr"
      else if brickType.Percentage? then "percentage"
      else "fixed"
    }

    /** None stands for a metadata entry that is truthy but names no builder. */
    function ResolvedBuilder(): Option<string> {
      if Given(builderType) then builderType
      else if Given(builder) then builder
      else if BUILDER_TYPE in metadata && Truthy(metadata[BUILDER_TYPE]) then
        NameOf(metadata[BUILDER_TYPE])
      else Some("traditional")
    }

    function ResolvedStrategy(): string {
      if Given(referenceStrategy) then referenceStrategy.value
      else match referencePrice
           case None => "close"
           case Some(RefClose) => "close"
           case Some(RefOpen) => "open"
           case Some(RefHigh) => "high"
           case Some(RefLow) => "low"
           case Some(RefTypical) => "typical"
           case Some(RefMedian) => "median"
    }
  }

  /** An optional name that is present and not the empty string. */
  predicate Given(name: Option<string>) {
    name.Some? && name.value != ""
  }

  predicate Truthy(v: Value) {
    match v
    case Null => false
    case Flag(b) => b
    case Int(n) => n != 0
    case Num(x) => x != 0.0
    case Str(t) => t != Literal("")
    case Enum(t) => t != Literal("")
    case Stamp(_) => true
    case List(items) => |items| != 0
    case Tuple(items) => |items| != 0
    case Dict(entries) => |entries| != 0
    case Opaque(_, truthy) => truthy
  }

  function NameOf(v: Value): Option<string> {
    match v
    case Str(Literal(s)) => Some(s)
    case Enum(Literal(s)) => Some(s)
    case _ => None
  }

  /** The price the engine charts; a field the candle lacks is a KeyError. */
  function SelectPrice(c: Candle, source: ChartPrice): Option<real> {
    match source
    case FromOpen => c.open
    case FromHigh => c.high
    case FromLow => c.low
    case FromClose => c.close
    case FromTypical =>
      if c.high.Some? && c.low.Some? && c.close.Some?
      then Some((c.high.value + c.low.value + c.close.value) / 3.0) else None
  }

  datatype Prices = Prices(open: real, high: real, low: real, close: real)

  /** The provider's view of a candle: the close falls back to any price present,
      every other field falls back to that close. None if no price is present. */
  function CandlePrices(c: Candle): Option<Prices> {
    var close := if c.close.Some? then c.close
                 else if c.open.Some? then c.open
                 else if c.high.Some? then c.high
                 else c.low;
    if close.None? then None
    else Some(Prices(c.open.GetOr(close.value), c.high.GetOr(close.value),
                     c.low.GetOr(close.value), close.value))
  }
}
