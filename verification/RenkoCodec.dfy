/** The codecs between the renko models and JSON-compatible dictionaries. */
module RenkoCodec {
  import opened Common
  import opened PlainValue
  import opened RenkoModels

  datatype DecodeError = MissingArgument(key: Key) | WrongType(key: Key) | UnknownMember(key: Key)

  // ---- enums: the value text of a member, and the member lookup by value ----

  function TrendText(d: Trend): string {
    match d
    case Up => "up"
    case Down => "down"
    case Neutral => "neutral"
  }

  lemma TrendTextsDiffer(d: Trend, d': Trend)
    ensures TrendText(d) == TrendText(d') <==> d == d'
  {
    match d
    case Up =>
    case Down =>
    case Neutral =>
  }

  function TrendOf(s: string): (r: Option<Trend>)
    ensures r.Some? ==> TrendText(r.value) == s
    ensures r.None? ==> forall d :: TrendText(d) != s
  {
    if exists d :: TrendText(d) == s then
      var d :| TrendText(d) == s;
      Some(d)
    else None
  }

  lemma TrendRoundTrip(d: Trend)
    ensures TrendOf(TrendText(d)) == Some(d)
  {
    var found := TrendOf(TrendText(d));
    TrendTextsDiffer(found.value, d);
  }

  function BrickKindText(t: BrickKind): string {
    match t
    case Traditional => "traditional"
    case AverageTrueRange => "atr"
    case Percentage => "percentage"
    case Mean => "mean"
    case Median => "median"
    case Hybrid => "hybrid"
    case Ai => "ai"
  }

  lemma BrickKindTextsDiffer(t: BrickKind, t': BrickKind)
    ensures BrickKindText(t) == BrickKindText(t') <==> t == t'
  {
    match t
    case Traditional =>
    case AverageTrueRange =>
    case Percentage =>
    case Mean =>
    case Median =>
    case Hybrid =>
    case Ai =>
  }

  function BrickKindOf(s: string): (r: Option<BrickKind>)
    ensures r.Some? ==> BrickKindText(r.value) == s
    ensures r.None? ==> forall t :: BrickKindText(t) != s
  {
    if exists t :: BrickKindText(t) == s then
      var t :| BrickKindText(t) == s;
      Some(t)
    else None
  }

  lemma BrickKindRoundTrip(t: BrickKind)
    ensures BrickKindOf(BrickKindText(t)) == Some(t)
  {
    var found := BrickKindOf(BrickKindText(t));
    BrickKindTextsDiffer(found.value, t);
  }

  function ChartPriceText(p: ChartPrice): string {
    match p
    case FromOpen => "open"
    case FromHigh => "high"
    case FromLow => "low"
    case FromClose => "close"
    case FromTypical => "typical"
  }

  /** The price a source of this stored name charts, if the candle has what it takes. */
  lemma ChartedPrice(c: Candle, source: ChartPrice)
    ensures var name, price := ChartPriceText(source), SelectPrice(c, source);
            && (name == "open" ==> price == c.open) && (name == "high" ==> price == c.high)
            && (name == "low" ==> price == c.low) && (name == "close" ==> price == c.close)
            && (name == "typical" ==>
                  && (price.Some? <==> c.high.Some? && c.low.Some? && c.close.Some?)
                  && (price.Some? ==> 3.0 * price.value == c.high.value + c.low.value + c.close.value))
            && name in {"open", "high", "low", "close", "typical"}
  {
  }

  lemma ChartPriceTextsDiffer(p: ChartPrice, p': ChartPrice)
    ensures ChartPriceText(p) == ChartPriceText(p') <==> p == p'
  {
    match p
    case FromOpen =>
    case FromHigh =>
    case FromLow =>
    case FromClose =>
    case FromTypical =>
  }

  function ChartPriceOf(s: string): (r: Option<ChartPrice>)
    ensures r.Some? ==> ChartPriceText(r.value) == s
    ensures r.None? ==> forall p :: ChartPriceText(p) != s
  {
    if exists p :: ChartPriceText(p) == s then
      var p :| ChartPriceText(p) == s;
      Some(p)
    else None
  }

  lemma ChartPriceRoundTrip(p: ChartPrice)
    ensures ChartPriceOf(ChartPriceText(p)) == Some(p)
  {
    var found := ChartPriceOf(ChartPriceText(p));
    ChartPriceTextsDiffer(found.value, p);
  }

  function RunModeText(m: RunMode): string {
    match m
    case Live => "live"
    case Replay => "replay"
    case Backtest => "backtest"
  }

  lemma RunModeTextsDiffer(m: RunMode, m': RunMode)
    ensures RunModeText(m) == RunModeText(m') <==> m == m'
  {
    match m
    case Live =>
    case Replay =>
    case Backtest =>
  }

  function RunModeOf(s: string): (r: Option<RunMode>)
    ensures r.Some? ==> RunModeText(r.value) == s
    ensures r.None? ==> forall m :: RunModeText(m) != s
  {
    if exists m :: RunModeText(m) == s then
      var m :| RunModeText(m) == s;
      Some(m)
    else None
  }

  lemma RunModeRoundTrip(m: RunMode)
    ensures RunModeOf(RunModeText(m)) == Some(m)
  {
    var found := RunModeOf(RunModeText(m));
    RunModeTextsDiffer(found.value, m);
  }

  function SizingPriceText(r: SizingPrice): string {
    match r
    case RefClose => "close"
    case RefOpen => "open"
    case RefHigh => "high"
    case RefLow => "low"
    case RefTypical => "typical_price"
    case RefMedian => "median_price"
  }

  lemma SizingPriceTextsDiffer(r: SizingPrice, r': SizingPrice)
    ensures SizingPriceText(r) == SizingPriceText(r') <==> r == r'
  {
    match r
    case RefClose =>
    case RefOpen =>
    case RefHigh =>
    case RefLow =>
    case RefTypical =>
    case RefMedian =>
  }

  function SizingPriceOf(s: string): (r: Option<SizingPrice>)
    ensures r.Some? ==> SizingPriceText(r.value) == s
    ensures r.None? ==> forall r :: SizingPriceText(r) != s
  {
    if exists r :: SizingPriceText(r) == s then
      var r :| SizingPriceText(r) == s;
      Some(r)
    else None
  }

  lemma SizingPriceRoundTrip(r: SizingPrice)
    ensures SizingPriceOf(SizingPriceText(r)) == Some(r)
  {
    var found := SizingPriceOf(SizingPriceText(r));
    SizingPriceTextsDiffer(found.value, r);
  }

  function RoundingModeText(r: RoundingMode): string {
    match r
    case NoRounding => "none"
    case HalfUp => "round"
    case FloorDown => "floor"
    case CeilUp => "ceil"
  }

  lemma RoundingModeTextsDiffer(r: RoundingMode, r': RoundingMode)
    ensures RoundingModeText(r) == RoundingModeText(r') <==> r == r'
  {
    match r
    case NoRounding =>
    case HalfUp =>
    case FloorDown =>
    case CeilUp =>
  }

  function RoundingModeOf(s: string): (r: Option<RoundingMode>)
    ensures r.Some? ==> RoundingModeText(r.value) == s
    ensures r.None? ==> forall r :: RoundingModeText(r) != s
  {
    if exists r :: RoundingModeText(r) == s then
      var r :| RoundingModeText(r) == s;
      Some(r)
    else None
  }

  lemma RoundingModeRoundTrip(r: RoundingMode)
    ensures RoundingModeOf(RoundingModeText(r)) == Some(r)
  {
    var found := RoundingModeOf(RoundingModeText(r));
    RoundingModeTextsDiffer(found.value, r);
  }

  // ---- optional fields ----------------------------------------------------

  function FromInt(o: Option<int>): Value {
    if o.Some? then Int(o.value) else Null
  }

  function FromReal(o: Option<real>): Value {
    if o.Some? then Num(o.value) else Null
  }

  function FromName(o: Option<string>): Value {
    if o.Some? then Str(Literal(o.value)) else Null
  }

  function ToInt(v: Value): Option<Option<int>> {
    match v
    case Null => Some(None)
    case Int(n) => Some(Some(n))
    case _ => None
  }

  function ToReal(v: Value): Option<Option<real>> {
    match v
    case Null => Some(None)
    case Num(x) => Some(Some(x))
    case _ => None
  }

  function ToName(v: Value): Option<Option<string>> {
    match v
    case Null => Some(None)
    case Str(Literal(s)) => Some(Some(s))
    case _ => None
  }

  function FromThresholds(o: Option<seq<real>>): Value {
    if o.Some? then Tuple(seq(|o.value|, i requires 0 <= i < |o.value| => Num(o.value[i]))) else Null
  }

  function ToThresholds(v: Value): Option<Option<seq<real>>> {
    match v
    case Null => Some(None)
    case List(items) => if Numbers(items) then Some(Some(Reals(items))) else None
    case Tuple(items) => if Numbers(items) then Some(Some(Reals(items))) else None
    case _ => None
  }

  predicate Numbers(items: seq<Value>) {
    forall i | 0 <= i < |items| :: items[i].Num?
  }

  function Reals(items: seq<Value>): seq<real>
    requires Numbers(items)
  {
    seq(|items|, i requires 0 <= i < |items| => items[i].x)
  }

  lemma ThresholdsSurvive(o: Option<seq<real>>)
    ensures ToThresholds(Jsonify(FromThresholds(o))) == Some(o)
  {
    if o.Some? {
      var listed := Jsonify(FromThresholds(o)).items;
      forall i | 0 <= i < |listed| ensures listed[i] == Num(o.value[i]) {
        assert listed[i] == Jsonify(FromThresholds(o).elements[i]);
      }
      assert Reals(listed) == o.value;
    }
  }

  // ---- decoding: a dictionary to keyword arguments --------------------------

  /** dict.get(key, default). */
  function Field(data: map<Key, Value>, key: Key, default: Value): Value {
    if key in data then data[key] else default
  }

  /** Whether the field is an enum of the model, and the text names one of its members. */
  function EnumLookup(key: Key, text: string): Option<bool> {
    match key
    case OfConfiguration(BrickType) => Some(BrickKindOf(text).Some?)
    case OfConfiguration(PriceSource) => Some(ChartPriceOf(text).Some?)
    case OfConfiguration(Mode) => Some(RunModeOf(text).Some?)
    case OfConfiguration(ReferencePrice) => Some(SizingPriceOf(text).Some?)
    case OfConfiguration(Rounding) => Some(RoundingModeOf(text).Some?)
    case OfBrick(Direction) => Some(TrendOf(text).Some?)
    case OfState(Direction) => Some(TrendOf(text).Some?)
    case _ => None
  }

  predicate IsEnumField(key: Key) {
    EnumLookup(key, "").Some?
  }

  /** A value an enum field accepts: absent, a member, or the text of a member. */
  predicate Coercible(key: Key, v: Value) {
    IsEnumField(key) ==>
      match v
      case Null => true
      case Enum(_) => true
      case Str(Literal(text)) => EnumLookup(key, text) == Some(true)
      case _ => false
  }

  function Coerced(key: Key, v: Value): Value {
    if IsEnumField(key) && v.Str? then Enum(v.text) else v
  }

  function Kwargs(data: map<Key, Value>, fields: set<Key>): Option<map<Key, Value>> {
    if forall key | key in data && key in fields :: Coercible(key, data[key])
    then Some(map key | key in data && key in fields :: Coerced(key, data[key]))
    else None
  }

  /** The decoder's loop: keep the known fields, coerce enum texts, stop at a text
      that names no member. */
  method FillKwargs(data: map<Key, Value>, fields: set<Key>) returns (kwargs: Option<map<Key, Value>>)
    ensures kwargs == Kwargs(data, fields)
    ensures kwargs.None? <==> exists key :: key in data && key in fields && !Coercible(key, data[key])
    ensures kwargs.Some? ==> kwargs.value.Keys == data.Keys * fields
  {
    var filled: map<Key, Value> := map[];
    var rest := data.Keys;
    while rest != {}
      invariant rest <= data.Keys
      invariant filled.Keys == (data.Keys - rest) * fields
      invariant forall key | key in filled ::
                  Coercible(key, data[key]) && filled[key] == Coerced(key, data[key])
      decreases |rest|
    {
      var key :| key in rest;
      rest := rest - {key};
      if key in fields {
        if !Coercible(key, data[key]) {
          return None;
        }
        filled := filled[key := Coerced(key, data[key])];
      }
    }
    kwargs := Some(filled);
    assert filled == map key | key in data && key in fields :: Coerced(key, data[key]);
  }

  /** Keys that are no field of the model never matter: snapshots may carry more. */
  lemma UnknownKeysAreIgnored(data: map<Key, Value>, extra: map<Key, Value>, fields: set<Key>)
    requires extra.Keys !! fields && extra.Keys !! data.Keys
    ensures Kwargs(data + extra, fields) == Kwargs(data, fields)
  {
    var both := data + extra;
    assert forall key | key in fields :: (key in both <==> key in data) && (key in data ==> both[key] == data[key]);
    if Kwargs(data, fields).Some? {
      assert Kwargs(both, fields).value == Kwargs(data, fields).value;
    }
  }

  function MemberText(v: Value): string {
    match v
    case Enum(Literal(s)) => s
    case _ => ""
  }

  // ---- BrickConfiguration -------------------------------------------------

  const CONFIGURATION_FIELDS: set<Key> := set f: ConfigurationField :: OfConfiguration(f)

  function ConfigurationValue(c: BrickConfiguration, f: ConfigurationField): Value {
    match f
    case BrickType => Enum(Literal(BrickKindText(c.brickType)))
    case BrickSize => Num(c.brickSize)
    case PriceSource => Enum(Literal(ChartPriceText(c.priceSource)))
    case Mode => Enum(Literal(RunModeText(c.mode)))
    case AtrPeriod => FromInt(c.atrPeriod)
    case AtrMultiplier => FromReal(c.atrMultiplier)
    case Provider => FromName(c.provider)
    case Builder => FromName(c.builder)
    case BuilderType => FromName(c.builderType)
    case Percentage => FromReal(c.percentage)
    case ReferencePrice =>
      if c.referencePrice.Some? then Enum(Literal(SizingPriceText(c.referencePrice.value))) else Null
    case ReferenceStrategy => FromName(c.referenceStrategy)
    case MinimumSize => FromReal(c.minimumSize)
    case Rounding => Enum(Literal(RoundingModeText(c.rounding)))
    case MeanLookback => FromInt(c.meanLookback)
    case MedianLookback => FromInt(c.medianLookback)
    case HybridWeight => FromReal(c.hybridWeight)
    case AiModel => FromName(c.aiModel)
    case AdaptiveWindow => FromInt(c.adaptiveWindow)
    case AdaptiveThresholds => FromThresholds(c.adaptiveThresholds)
    case AdaptiveHysteresis => FromReal(c.adaptiveHysteresis)
    case Metadata => Dict(c.metadata)
  }

  function ConfigurationToDict(c: BrickConfiguration): map<Key, Value> {
    map f: ConfigurationField :: OfConfiguration(f) := Jsonify(ConfigurationValue(c, f))
  }

  function Argument(kwargs: map<Key, Value>, f: ConfigurationField, default: Value): Value {
    Field(kwargs, OfConfiguration(f), default)
  }

  datatype Choices = Choices(kind: BrickKind, source: ChartPrice, mode: RunMode,
                             rounding: RoundingMode, reference: Option<SizingPrice>)

  datatype Names = Names(provider: Option<string>, builder: Option<string>, builderType: Option<string>,
                         strategy: Option<string>, model: Option<string>)

  datatype Sizing = Sizing(size: real, atrPeriod: Option<int>, atrMultiplier: Option<real>,
                           percentage: Option<real>, minimum: Option<real>, mean: Option<int>,
                           median: Option<int>, weight: Option<real>)

  datatype Adaptation = Adaptation(window: Option<int>, thresholds: Option<seq<real>>,
                                   hysteresis: Option<real>, metadata: map<Key, Value>)

  function MakeChoices(kwargs: map<Key, Value>): Option<Choices> {
    var reference := Argument(kwargs, ConfigurationField.ReferencePrice, Enum(Literal("close")));
    var kind := BrickKindOf(MemberText(Argument(kwargs, ConfigurationField.BrickType, Null)));
    var source := ChartPriceOf(MemberText(Argument(kwargs, ConfigurationField.PriceSource, Enum(Literal("close")))));
    var mode := RunModeOf(MemberText(Argument(kwargs, ConfigurationField.Mode, Enum(Literal("live")))));
    var rounding := RoundingModeOf(MemberText(Argument(kwargs, ConfigurationField.Rounding, Enum(Literal("none")))));
    var referencePrice := SizingPriceOf(MemberText(reference));
    if kind.Some? && source.Some? && mode.Some? && rounding.Some? && (reference.Null? || referencePrice.Some?)
    then Some(Choices(kind.value, source.value, mode.value, rounding.value,
                      if reference.Null? then None else referencePrice))
    else None
  }

  function MakeNames(kwargs: map<Key, Value>): Option<Names> {
    var provider := ToName(Argument(kwargs, ConfigurationField.Provider, Null));
    var builder := ToName(Argument(kwargs, ConfigurationField.Builder, Null));
    var builderType := ToName(Argument(kwargs, ConfigurationField.BuilderType, Null));
    var strategy := ToName(Argument(kwargs, ConfigurationField.ReferenceStrategy, Null));
    var model := ToName(Argument(kwargs, ConfigurationField.AiModel, Null));
    if provider.Some? && builder.Some? && builderType.Some? && strategy.Some? && model.Some?
    then Some(Names(provider.value, builder.value, builderType.value, strategy.value, model.value))
    else None
  }

  function MakeSizing(kwargs: map<Key, Value>): Option<Sizing> {
    var size := Argument(kwargs, ConfigurationField.BrickSize, Null);
    var atrPeriod := ToInt(Argument(kwargs, ConfigurationField.AtrPeriod, Null));
    var atrMultiplier := ToReal(Argument(kwargs, ConfigurationField.AtrMultiplier, Null));
    var percentage := ToReal(Argument(kwargs, ConfigurationField.Percentage, Null));
    var minimum := ToReal(Argument(kwargs, ConfigurationField.MinimumSize, Null));
    var mean := ToInt(Argument(kwargs, ConfigurationField.MeanLookback, Null));
    var median := ToInt(Argument(kwargs, ConfigurationField.MedianLookback, Null));
    var weight := ToReal(Argument(kwargs, ConfigurationField.HybridWeight, Null));
    if size.Num? && atrPeriod.Some? && atrMultiplier.Some? && percentage.Some? && minimum.Some?
       && mean.Some? && median.Some? && weight.Some?
    then Some(Sizing(size.x, atrPeriod.value, atrMultiplier.value, percentage.value, minimum.value,
                     mean.value, median.value, weight.value))
    else None
  }

  function MakeAdaptation(kwargs: map<Key, Value>): Option<Adaptation> {
    var window := ToInt(Argument(kwargs, ConfigurationField.AdaptiveWindow, Null));
    var thresholds := ToThresholds(Argument(kwargs, ConfigurationField.AdaptiveThresholds, Null));
    var hysteresis := ToReal(Argument(kwargs, ConfigurationField.AdaptiveHysteresis, Null));
    var metadata := Argument(kwargs, ConfigurationField.Metadata, Dict(map[]));
    if window.Some? && thresholds.Some? && hysteresis.Some? && metadata.Dict?
    then Some(Adaptation(window.value, thresholds.value, hysteresis.value, metadata.entries))
    else None
  }

  /** The dataclass constructor applied to keyword arguments: defaults for absent fields,
      None when a required one is missing or a value has another type. */
  function MakeConfiguration(kwargs: map<Key, Value>): Option<BrickConfiguration> {
    var choices, names := MakeChoices(kwargs), MakeNames(kwargs);
    var sizing, adaptation := MakeSizing(kwargs), MakeAdaptation(kwargs);
    if choices.Some? && names.Some? && sizing.Some? && adaptation.Some?
    then
      var c, n, s, a := choices.value, names.value, sizing.value, adaptation.value;
      Some(BrickConfiguration(
        c.kind, s.size, c.source, c.mode, s.atrPeriod, s.atrMultiplier, n.provider, n.builder,
        n.builderType, s.percentage, c.reference, n.strategy, s.minimum, c.rounding, s.mean,
        s.median, s.weight, n.model, a.window, a.thresholds, a.hysteresis, a.metadata))
    else None
  }

  function ConfigurationFromDict(data: map<Key, Value>): Option<BrickConfiguration> {
    var kwargs := Kwargs(data, CONFIGURATION_FIELDS);
    if kwargs.None? then None else MakeConfiguration(kwargs.value)
  }

  /** A configuration as it comes back from storage: only the free-form metadata can differ. */
  function Stored(c: BrickConfiguration): BrickConfiguration {
    c.(metadata := StoredEntries(c.metadata))
  }

  function StoredEntries(m: map<Key, Value>): map<Key, Value> {
    map k | k in m :: Jsonify(m[k])
  }

  /** The keyword argument each stored field turns into. */
  function ConfigurationArgument(c: BrickConfiguration, f: ConfigurationField): Value {
    match f
    case AdaptiveThresholds => Jsonify(FromThresholds(c.adaptiveThresholds))
    case Metadata => Dict(StoredEntries(c.metadata))
    case _ => ConfigurationValue(c, f)
  }

  /** Every enum text a configuration encodes is the text of a member. */
  lemma ConfigurationFieldDecodes(c: BrickConfiguration, f: ConfigurationField)
    ensures var stored := Jsonify(ConfigurationValue(c, f));
            && Coercible(OfConfiguration(f), stored)
            && Coerced(OfConfiguration(f), stored) == ConfigurationArgument(c, f)
  {
    match f
    case BrickType => BrickKindRoundTrip(c.brickType);
    case PriceSource => ChartPriceRoundTrip(c.priceSource);
    case Mode => RunModeRoundTrip(c.mode);
    case ReferencePrice =>
      if c.referencePrice.Some? { SizingPriceRoundTrip(c.referencePrice.value); }
    case Rounding => RoundingModeRoundTrip(c.rounding);
    case _ =>
  }

  ghost predicate Holds(kwargs: map<Key, Value>, c: BrickConfiguration) {
    forall f :: OfConfiguration(f) in kwargs && kwargs[OfConfiguration(f)] == ConfigurationArgument(c, f)
  }

  lemma KindIsHeld(c: BrickConfiguration, kwargs: map<Key, Value>)
    requires Holds(kwargs, c)
    ensures BrickKindOf(MemberText(Argument(kwargs, ConfigurationField.BrickType, Null))) == Some(c.brickType)
  {
    BrickKindRoundTrip(c.brickType);
  }

  lemma SourceIsHeld(c: BrickConfiguration, kwargs: map<Key, Value>)
    requires Holds(kwargs, c)
    ensures ChartPriceOf(MemberText(Argument(kwargs, ConfigurationField.PriceSource, Enum(Literal("close"))))) == Some(c.priceSource)
  {
    ChartPriceRoundTrip(c.priceSource);
  }

  lemma ModeIsHeld(c: BrickConfiguration, kwargs: map<Key, Value>)
    requires Holds(kwargs, c)
    ensures RunModeOf(MemberText(Argument(kwargs, ConfigurationField.Mode, Enum(Literal("live"))))) == Some(c.mode)
  {
    RunModeRoundTrip(c.mode);
  }

  lemma RoundingIsHeld(c: BrickConfiguration, kwargs: map<Key, Value>)
    requires Holds(kwargs, c)
    ensures RoundingModeOf(MemberText(Argument(kwargs, ConfigurationField.Rounding, Enum(Literal("none"))))) == Some(c.rounding)
  {
    RoundingModeRoundTrip(c.rounding);
  }

  lemma ReferenceIsHeld(c: BrickConfiguration, kwargs: map<Key, Value>)
    requires Holds(kwargs, c)
    ensures var reference := Argument(kwargs, ConfigurationField.ReferencePrice, Enum(Literal("close")));
            if c.referencePrice.None? then reference.Null?
            else !reference.Null? && SizingPriceOf(MemberText(reference)) == c.referencePrice
  {
    if c.referencePrice.Some? {
      SizingPriceRoundTrip(c.referencePrice.value);
    }
  }

  lemma MakeChoicesFromFields(c: BrickConfiguration, kwargs: map<Key, Value>)
    requires Holds(kwargs, c)
    ensures MakeChoices(kwargs) ==
            Some(Choices(c.brickType, c.priceSource, c.mode, c.rounding, c.referencePrice))
  {
    hide Holds, Argument, MemberText, BrickKindOf, ChartPriceOf, RunModeOf, RoundingModeOf, SizingPriceOf;
    KindIsHeld(c, kwargs);
    SourceIsHeld(c, kwargs);
    ModeIsHeld(c, kwargs);
    RoundingIsHeld(c, kwargs);
    ReferenceIsHeld(c, kwargs);
  }

  lemma MakeNamesFromFields(c: BrickConfiguration, kwargs: map<Key, Value>)
    requires Holds(kwargs, c)
    ensures MakeNames(kwargs) ==
            Some(Names(c.provider, c.builder, c.builderType, c.referenceStrategy, c.aiModel))
  {
  }

  lemma MakeSizingFromFields(c: BrickConfiguration, kwargs: map<Key, Value>)
    requires Holds(kwargs, c)
    ensures MakeSizing(kwargs) ==
            Some(Sizing(c.brickSize, c.atrPeriod, c.atrMultiplier, c.percentage, c.minimumSize,
                        c.meanLookback, c.medianLookback, c.hybridWeight))
  {
    hide Holds, Argument, ToReal, ToInt;
    SizeIsHeld(c, kwargs);
    CountsAreHeld(c, kwargs);
    RatesAreHeld(c, kwargs);
  }

  lemma SizeIsHeld(c: BrickConfiguration, kwargs: map<Key, Value>)
    requires Holds(kwargs, c)
    ensures Argument(kwargs, ConfigurationField.BrickSize, Null) == Num(c.brickSize)
  {
  }

  lemma CountsAreHeld(c: BrickConfiguration, kwargs: map<Key, Value>)
    requires Holds(kwargs, c)
    ensures ToInt(Argument(kwargs, ConfigurationField.AtrPeriod, Null)) == Some(c.atrPeriod)
    ensures ToInt(Argument(kwargs, ConfigurationField.MeanLookback, Null)) == Some(c.meanLookback)
    ensures ToInt(Argument(kwargs, ConfigurationField.MedianLookback, Null)) == Some(c.medianLookback)
    ensures ToInt(Argument(kwargs, ConfigurationField.AdaptiveWindow, Null)) == Some(c.adaptiveWindow)
  {
  }

  lemma RatesAreHeld(c: BrickConfiguration, kwargs: map<Key, Value>)
    requires Holds(kwargs, c)
    ensures ToReal(Argument(kwargs, ConfigurationField.AtrMultiplier, Null)) == Some(c.atrMultiplier)
    ensures ToReal(Argument(kwargs, ConfigurationField.Percentage, Null)) == Some(c.percentage)
    ensures ToReal(Argument(kwargs, ConfigurationField.MinimumSize, Null)) == Some(c.minimumSize)
    ensures ToReal(Argument(kwargs, ConfigurationField.HybridWeight, Null)) == Some(c.hybridWeight)
    ensures ToReal(Argument(kwargs, ConfigurationField.AdaptiveHysteresis, Null)) == Some(c.adaptiveHysteresis)
  {
  }

  lemma MakeAdaptationFromFields(c: BrickConfiguration, kwargs: map<Key, Value>)
    requires Holds(kwargs, c)
    ensures MakeAdaptation(kwargs) ==
            Some(Adaptation(c.adaptiveWindow, c.adaptiveThresholds, c.adaptiveHysteresis,
                            StoredEntries(c.metadata)))
  {
    hide Holds, Argument, StoredEntries, ToThresholds, ToReal, ToInt;
    CountsAreHeld(c, kwargs);
    RatesAreHeld(c, kwargs);
    ThresholdsAreHeld(c, kwargs);
  }

  lemma ThresholdsAreHeld(c: BrickConfiguration, kwargs: map<Key, Value>)
    requires Holds(kwargs, c)
    ensures ToThresholds(Argument(kwargs, ConfigurationField.AdaptiveThresholds, Null)) == Some(c.adaptiveThresholds)
    ensures Argument(kwargs, ConfigurationField.Metadata, Dict(map[])) == Dict(StoredEntries(c.metadata))
  {
    hide ToThresholds, StoredEntries;
    ThresholdsSurvive(c.adaptiveThresholds);
  }

  lemma MakeFromFields(c: BrickConfiguration, kwargs: map<Key, Value>)
    requires Holds(kwargs, c)
    ensures MakeConfiguration(kwargs) == Some(Stored(c))
  {
    MakeChoicesFromFields(c, kwargs);
    MakeNamesFromFields(c, kwargs);
    MakeSizingFromFields(c, kwargs);
    MakeAdaptationFromFields(c, kwargs);
  }

  /** Apart from the free-form metadata, every field is stored as something JSON-compatible. */
  lemma FieldIsSafe(c: BrickConfiguration, f: ConfigurationField)
    requires f != ConfigurationField.Metadata
    ensures JsonSafe(Jsonify(ConfigurationValue(c, f)))
  {
    var v := ConfigurationValue(c, f);
    if f == ConfigurationField.AdaptiveThresholds && c.adaptiveThresholds.Some? {
      assert forall i | 0 <= i < |v.elements| :: v.elements[i].Num?;
      assert Carriable(v) && TextKeys(v);
      JsonifyIsSafe(v);
    }
  }

  /** Decoding an encoded configuration gives the configuration back, its thresholds as the same
      numbers and its metadata converted. The dictionary can be written exactly when JSON can carry the
      metadata, and is JSON-compatible exactly when its keys are texts too. */
  lemma ConfigurationRoundTrip(c: BrickConfiguration)
    ensures ConfigurationFromDict(ConfigurationToDict(c)) == Some(Stored(c))
    ensures Writable(Dict(ConfigurationToDict(c))) <==> Carriable(Dict(c.metadata))
    ensures JsonSafe(Dict(ConfigurationToDict(c))) <==> Carriable(Dict(c.metadata)) && TextKeys(Dict(c.metadata))
  {
    hide ConfigurationValue, Jsonify, Writable, JsonSafe, Carriable, TextKeys, ConfigurationToDict, ConfigurationFromDict;
    ConfigurationDecodes(c);
    var d := ConfigurationToDict(c);
    var m := OfConfiguration(ConfigurationField.Metadata);
    MetadataIsStored(c);
    JsonifyIsSafe(Dict(c.metadata));
    forall k | k in d && k != m ensures JsonSafe(d[k]) && Writable(d[k]) {
      var f: ConfigurationField :| k == OfConfiguration(f);
      FieldIsSafe(c, f);
      FieldIsStored(c, f);
      SafeStaysAsItIs(d[k]);
    }
    OneEntryDecides(d, m);
  }

  lemma FieldIsStored(c: BrickConfiguration, f: ConfigurationField)
    ensures OfConfiguration(f) in ConfigurationToDict(c)
    ensures ConfigurationToDict(c)[OfConfiguration(f)] == Jsonify(ConfigurationValue(c, f))
  {
  }

  lemma MetadataIsStored(c: BrickConfiguration)
    ensures var m := OfConfiguration(ConfigurationField.Metadata);
            && m in ConfigurationToDict(c) && ConfigurationToDict(c)[m] == Jsonify(Dict(c.metadata))
            && Jsonify(Dict(c.metadata)) == Dict(StoredEntries(c.metadata))
    ensures forall k | k in ConfigurationToDict(c) :: exists f: ConfigurationField :: k == OfConfiguration(f)
  {
  }

  lemma ConfigurationDecodes(c: BrickConfiguration)
    ensures ConfigurationFromDict(ConfigurationToDict(c)) == Some(Stored(c))
  {
    var d := ConfigurationToDict(c);
    forall f: ConfigurationField
      ensures Coercible(OfConfiguration(f), d[OfConfiguration(f)])
      ensures Coerced(OfConfiguration(f), d[OfConfiguration(f)]) == ConfigurationArgument(c, f)
    {
      ConfigurationFieldDecodes(c, f);
    }
    var kwargs := Kwargs(d, CONFIGURATION_FIELDS);
    assert kwargs.Some?;
    MakeFromFields(c, kwargs.value);
  }

  lemma StoredEntriesAreSafe(m: map<Key, Value>)
    ensures Writable(Dict(StoredEntries(m))) <==> Carriable(Dict(m))
    ensures StoredEntries(StoredEntries(m)) == StoredEntries(m)
    ensures JsonSafe(Dict(m)) ==> StoredEntries(m) == m
  {
    JsonifyIsSafe(Dict(m));
    JsonifyFixesConverted(Dict(m));
    JsonifyFixesConverted(Dict(StoredEntries(m)));
    if JsonSafe(Dict(m)) {
      SafeStaysAsItIs(Dict(m));
    }
  }

  // ---- through text ---------------------------------------------------------

  /** A configuration as it comes back from text: its metadata as the text reads back. */
  function Reloaded(c: BrickConfiguration): BrickConfiguration {
    c.(metadata := RereadEntries(Dict(StoredEntries(c.metadata))))
  }

  lemma ReloadedIsSafe(c: BrickConfiguration)
    requires Carriable(Dict(c.metadata))
    ensures JsonSafe(Dict(Reloaded(c).metadata)) && Stored(Reloaded(c)) == Reloaded(c)
    ensures Reread(Dict(StoredEntries(c.metadata))) == Dict(Reloaded(c).metadata)
  {
    StoredEntriesAreSafe(c.metadata);
    RereadIsSafe(Dict(StoredEntries(c.metadata)));
    RereadOfDict(Dict(StoredEntries(c.metadata)));
    StoredEntriesAreSafe(Reloaded(c).metadata);
  }

  /** Text keys that hold nothing foreign come back as they were stored. */
  lemma ReloadedIsStoredIff(c: BrickConfiguration)
    requires Carriable(Dict(c.metadata))
    ensures Reloaded(c) == Stored(c) <==> TextKeys(Dict(c.metadata))
  {
    JsonifyIsSafe(Dict(c.metadata));
    ReloadedIsSafe(c);
    if TextKeys(Dict(c.metadata)) {
      SafeStaysAsItIs(Dict(StoredEntries(c.metadata)));
    }
  }

  /** What a written configuration reads back as is the dictionary of the reloaded one. */
  lemma ConfigurationRereads(c: BrickConfiguration)
    requires Carriable(Dict(c.metadata))
    ensures RereadEntries(Dict(ConfigurationToDict(c))) == ConfigurationToDict(Reloaded(c))
  {
    hide Reread, ConfigurationToDict, ConfigurationValue, Jsonify, RereadEntries, Reloaded;
    var d, r := ConfigurationToDict(c), ConfigurationToDict(Reloaded(c));
    SameKeys(c);
    MetadataIsStored(c);
    forall k | k in d ensures IsText(k) && Reread(d[k]) == r[k] {
      var f: ConfigurationField :| k == OfConfiguration(f);
      FieldIsStored(c, f);
      FieldIsStored(Reloaded(c), f);
      FieldRereads(c, f);
    }
    RereadsTo(d, r);
  }

  lemma SameKeys(c: BrickConfiguration)
    ensures ConfigurationToDict(c).Keys == ConfigurationToDict(Reloaded(c)).Keys
  {
  }

  lemma FieldRereads(c: BrickConfiguration, f: ConfigurationField)
    requires Carriable(Dict(c.metadata))
    ensures Reread(Jsonify(ConfigurationValue(c, f))) == Jsonify(ConfigurationValue(Reloaded(c), f))
  {
    if f == ConfigurationField.Metadata {
      MetadataIsStored(c);
      ReloadedIsSafe(c);
      SafeStaysAsItIs(Dict(Reloaded(c).metadata));
    } else {
      FieldIsSafe(c, f);
      SafeStaysAsItIs(Jsonify(ConfigurationValue(c, f)));
      FieldIgnoresMetadata(c, f);
    }
  }

  lemma FieldIgnoresMetadata(c: BrickConfiguration, f: ConfigurationField)
    requires f != ConfigurationField.Metadata
    ensures ConfigurationValue(Reloaded(c), f) == ConfigurationValue(c, f)
  {
  }

  /** Going through text changes nothing the engine resolves. */
  lemma ReloadedResolves(c: BrickConfiguration)
    ensures Reloaded(c).ResolvedProvider() == c.ResolvedProvider()
    ensures Reloaded(c).ResolvedBuilder() == c.ResolvedBuilder()
    ensures Reloaded(c).ResolvedStrategy() == c.ResolvedStrategy()
  {
    StoredIsStable(c);
    var stored := StoredEntries(c.metadata);
    BuilderTypeRereads(stored);
    if BUILDER_TYPE in stored {
      TruthIsReread(stored[BUILDER_TYPE]);
    }
  }

  lemma BuilderTypeRereads(m: map<Key, Value>)
    ensures var r := RereadEntries(Dict(m));
            && (BUILDER_TYPE in r <==> BUILDER_TYPE in m)
            && (BUILDER_TYPE in m ==> r[BUILDER_TYPE] == Reread(m[BUILDER_TYPE]))
  {
    hide Reread;
    if BUILDER_TYPE in m {
      assert Kept(m, BUILDER_TYPE) && TextOf(BUILDER_TYPE) == BUILDER_TYPE;
    }
  }

  lemma TruthIsReread(v: Value)
    ensures Truthy(Reread(v)) == Truthy(v) && NameOf(Reread(v)) == NameOf(v)
  {
    match v
    case Dict(entries) =>
      RereadOfDict(v);
      SomeKeyIsKept(entries);
    case _ =>
  }

  lemma SomeKeyIsKept(entries: map<Key, Value>)
    ensures RereadEntries(Dict(entries)) == map[] <==> entries == map[]
  {
    hide Reread;
    if k :| k in entries {
      var j := if Kept(entries, k) then k else Other(k.text);
      assert Kept(entries, j) && TextOf(j) in RereadEntries(Dict(entries));
    }
  }

  /** Storing twice is storing once, and storing changes nothing the engine resolves. */
  lemma StoredIsStable(c: BrickConfiguration)
    ensures ConfigurationToDict(Stored(c)) == ConfigurationToDict(c)
    ensures Stored(c).ResolvedProvider() == c.ResolvedProvider()
    ensures Stored(c).ResolvedBuilder() == c.ResolvedBuilder()
    ensures Stored(c).ResolvedStrategy() == c.ResolvedStrategy()
  {
    hide ConfigurationValue, Jsonify;
    forall f: ConfigurationField
      ensures Jsonify(ConfigurationValue(Stored(c), f)) == Jsonify(ConfigurationValue(c, f))
    {
      FieldStoresTwice(c, f);
    }
    StoredResolves(c);
  }

  lemma FieldStoresTwice(c: BrickConfiguration, f: ConfigurationField)
    ensures Jsonify(ConfigurationValue(Stored(c), f)) == Jsonify(ConfigurationValue(c, f))
  {
    hide Jsonify;
    if f == ConfigurationField.Metadata {
      MetadataStoresTwice(c.metadata);
    }
  }

  lemma MetadataStoresTwice(m: map<Key, Value>)
    ensures Jsonify(Dict(StoredEntries(m))) == Jsonify(Dict(m))
  {
    StoredEntriesAreSafe(m);
    assert Jsonify(Dict(StoredEntries(m))) == Dict(StoredEntries(StoredEntries(m)));
  }

  lemma StoredResolves(c: BrickConfiguration)
    ensures Stored(c).ResolvedProvider() == c.ResolvedProvider()
    ensures Stored(c).ResolvedBuilder() == c.ResolvedBuilder()
    ensures Stored(c).ResolvedStrategy() == c.ResolvedStrategy()
  {
    hide Jsonify, Truthy, NameOf;
    if BUILDER_TYPE in c.metadata {
      TruthIsStored(c.metadata[BUILDER_TYPE]);
    }
  }

  lemma TruthIsStored(v: Value)
    ensures Truthy(Jsonify(v)) == Truthy(v) && NameOf(Jsonify(v)) == NameOf(v)
  {
    match v
    case Dict(entries) =>
      var image := map k | k in entries :: Jsonify(entries[k]);
      assert image.Keys == entries.Keys;
      assert |image| == |image.Keys| == |entries.Keys| == |entries|;
    case _ =>
  }

  // ---- Brick --------------------------------------------------------------

  const BRICK_FIELDS: set<Key> := set f: BrickField :: OfBrick(f)

  function BrickValue(b: Brick, f: BrickField): Value {
    match f
    case Id => Str(b.id)
    case Direction => Enum(Literal(TrendText(b.direction)))
    case Open => Num(b.open)
    case Close => Num(b.close)
    case High => Num(b.high)
    case Low => Num(b.low)
    case Volume => Num(b.volume)
    case CreatedAt => Stamp(b.createdAt)
    case Metadata => Dict(b.metadata)
  }

  function BrickToDict(b: Brick): map<Key, Value> {
    map f: BrickField :: OfBrick(f) := Jsonify(BrickValue(b, f))
  }

  function MakeBrick(kwargs: map<Key, Value>): Option<Brick> {
    var id := Field(kwargs, OfBrick(BrickField.Id), Null);
    var direction := TrendOf(MemberText(Field(kwargs, OfBrick(BrickField.Direction), Null)));
    var open := Field(kwargs, OfBrick(BrickField.Open), Null);
    var close := Field(kwargs, OfBrick(BrickField.Close), Null);
    var high := Field(kwargs, OfBrick(BrickField.High), Null);
    var low := Field(kwargs, OfBrick(BrickField.Low), Null);
    var volume := Field(kwargs, OfBrick(BrickField.Volume), Null);
    var createdAt := Field(kwargs, OfBrick(BrickField.CreatedAt), Null);
    var metadata := Field(kwargs, OfBrick(BrickField.Metadata), Dict(map[]));
    if id.Str? && direction.Some? && open.Num? && close.Num? && high.Num? && low.Num?
       && volume.Num? && createdAt.Stamp? && metadata.Dict?
    then Some(Brick(id.text, direction.value, open.x, close.x, high.x, low.x, volume.x,
                    createdAt.at, metadata.entries))
    else None
  }

  /** The ISO text of created_at becomes a datetime again before the fields are read. */
  function PrepareBrick(data: map<Key, Value>): map<Key, Value> {
    var key := OfBrick(BrickField.CreatedAt);
    if key in data && data[key].Str? && data[key].text.Iso?
    then data[key := Stamp(data[key].text.timestamp)]
    else data
  }

  function BrickFromDict(data: map<Key, Value>): Option<Brick> {
    var kwargs := Kwargs(PrepareBrick(data), BRICK_FIELDS);
    if kwargs.None? then None else MakeBrick(kwargs.value)
  }

  /** What a field is once created_at is a datetime again. */
  function PreparedValue(b: Brick, f: BrickField): Value {
    if f == BrickField.CreatedAt then Stamp(b.createdAt) else Jsonify(BrickValue(b, f))
  }

  lemma BrickFieldDecodes(b: Brick, f: BrickField)
    requires JsonSafe(Dict(b.metadata))
    ensures JsonSafe(Jsonify(BrickValue(b, f)))
    ensures Coercible(OfBrick(f), PreparedValue(b, f))
    ensures Coerced(OfBrick(f), PreparedValue(b, f)) == BrickValue(b, f)
  {
    match f
    case Direction => TrendRoundTrip(b.direction);
    case Metadata => SafeStaysAsItIs(Dict(b.metadata));
    case _ =>
  }

  lemma MakeBrickFromFields(b: Brick, kwargs: map<Key, Value>)
    requires forall f :: OfBrick(f) in kwargs && kwargs[OfBrick(f)] == BrickValue(b, f)
    ensures MakeBrick(kwargs) == Some(b)
  {
    TrendRoundTrip(b.direction);
  }

  lemma BrickRoundTrip(b: Brick)
    requires JsonSafe(Dict(b.metadata))
    ensures BrickFromDict(BrickToDict(b)) == Some(b)
    ensures JsonSafe(Dict(BrickToDict(b)))
  {
    BrickIsSafe(b);
    hide JsonSafe;
    var d := BrickToDict(b);
    var prepared := PrepareBrick(d);
    forall f: BrickField
      ensures OfBrick(f) in prepared && Coercible(OfBrick(f), prepared[OfBrick(f)])
      ensures Coerced(OfBrick(f), prepared[OfBrick(f)]) == BrickValue(b, f)
    {
      BrickFieldDecodes(b, f);
      assert prepared[OfBrick(f)] == PreparedValue(b, f);
    }
    var kwargs := Kwargs(prepared, BRICK_FIELDS);
    assert kwargs.Some?;
    MakeBrickFromFields(b, kwargs.value);
  }

  lemma BrickIsSafe(b: Brick)
    requires JsonSafe(Dict(b.metadata))
    ensures JsonSafe(Dict(BrickToDict(b)))
  {
    forall f: BrickField ensures JsonSafe(BrickToDict(b)[OfBrick(f)]) {
      BrickFieldDecodes(b, f);
    }
  }

  // ---- BrickState ---------------------------------------------------------

  const STATE_FIELDS: set<Key> := set f: StateField :: OfState(f)

  function StateValue(s: BrickState, f: StateField): Value {
    match f
    case Direction => Enum(Literal(TrendText(s.direction)))
    case LastPrice => Num(s.lastPrice)
    case BrickSize => Num(s.brickSize)
    case IsOpen => Flag(s.isOpen)
    case Metadata => Dict(s.metadata)
  }

  function StateToDict(s: BrickState): map<Key, Value> {
    map f: StateField :: OfState(f) := Jsonify(StateValue(s, f))
  }

  function MakeState(kwargs: map<Key, Value>): Option<BrickState> {
    var direction := TrendOf(MemberText(Field(kwargs, OfState(StateField.Direction), Null)));
    var lastPrice := Field(kwargs, OfState(StateField.LastPrice), Null);
    var brickSize := Field(kwargs, OfState(StateField.BrickSize), Null);
    var isOpen := Field(kwargs, OfState(StateField.IsOpen), Null);
    var metadata := Field(kwargs, OfState(StateField.Metadata), Dict(map[]));
    if direction.Some? && lastPrice.Num? && brickSize.Num? && isOpen.Flag? && metadata.Dict?
    then Some(BrickState(direction.value, lastPrice.x, brickSize.x, isOpen.flag, metadata.entries))
    else None
  }

  function StateFromDict(data: map<Key, Value>): Option<BrickState> {
    var kwargs := Kwargs(data, STATE_FIELDS);
    if kwargs.None? then None else MakeState(kwargs.value)
  }

  lemma StateFieldDecodes(s: BrickState, f: StateField)
    requires JsonSafe(Dict(s.metadata))
    ensures var stored := Jsonify(StateValue(s, f));
            JsonSafe(stored) && Coercible(OfState(f), stored) && Coerced(OfState(f), stored) == StateValue(s, f)
  {
    match f
    case Direction => TrendRoundTrip(s.direction);
    case Metadata => SafeStaysAsItIs(Dict(s.metadata));
    case _ =>
  }

  lemma MakeStateFromFields(s: BrickState, kwargs: map<Key, Value>)
    requires forall f :: OfState(f) in kwargs && kwargs[OfState(f)] == StateValue(s, f)
    ensures MakeState(kwargs) == Some(s)
  {
    TrendRoundTrip(s.direction);
  }

  lemma StateRoundTrip(s: BrickState)
    requires JsonSafe(Dict(s.metadata))
    ensures StateFromDict(StateToDict(s)) == Some(s)
    ensures JsonSafe(Dict(StateToDict(s)))
  {
    hide Jsonify, StateValue, Coercible, Coerced, MakeState;
    var d := StateToDict(s);
    forall f: StateField
      ensures JsonSafe(d[OfState(f)]) && Coercible(OfState(f), d[OfState(f)])
      ensures Coerced(OfState(f), d[OfState(f)]) == StateValue(s, f)
    {
      StateFieldDecodes(s, f);
    }
    var kwargs := Kwargs(d, STATE_FIELDS);
    assert kwargs.Some?;
    MakeStateFromFields(s, kwargs.value);
  }
}
