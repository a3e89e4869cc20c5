/** The configuration validator against what the registries can build. */
module RenkoValidator {
  import opened Common
  import opened PlainValue
  import opened RenkoModels
  import opened RegimeClassifier
  import opened RenkoProviders
  import opened RenkoEngine

  predicate Positive(x: Option<real>) {
    x.Some? && x.value > 0.0
  }

  predicate AtLeastOne(n: Option<int>) {
    n.Some? && n.value >= 1
  }

  /** validate_configuration with the built-in registries: it returns, rather than raises. */
  predicate Passes(c: BrickConfiguration) {
    && c.brickSize > 0.0
    && (c.brickType.AverageTrueRange? ==> AtLeastOne(c.atrPeriod) && (c.atrMultiplier.Some? ==> Positive(c.atrMultiplier)))
    && (c.brickType.Percentage? ==> Positive(c.percentage))
    && (c.ResolvedProvider() == "percentage" ==>
          Positive(c.percentage) && c.percentage.value <= 100.0 && (c.minimumSize.Some? ==> Positive(c.minimumSize))
          && c.referencePrice.Some?)
    && (c.brickType.Mean? ==> AtLeastOne(c.meanLookback))
    && (c.brickType.Median? ==> AtLeastOne(c.medianLookback))
    && (c.brickType.Hybrid? ==> c.hybridWeight.Some? && 0.0 <= c.hybridWeight.value <= 1.0)
    && (c.brickType.Ai? ==> Given(c.aiModel))
    && c.ResolvedProvider() in PROVIDER_NAMES
    && StrategyNamed(c.ResolvedStrategy()).Some?
    && BuilderNamed(c.ResolvedBuilder()).Some?
    && (c.ResolvedProvider() == "adaptive" ==> PassesAdaptive(c))
  }

  predicate PassesAdaptive(c: BrickConfiguration) {
    && c.brickSize > 0.0 && Positive(c.percentage) && AtLeastOne(c.atrPeriod)
    && (c.adaptiveWindow.Some? ==> AtLeastOne(c.adaptiveWindow))
    && (c.adaptiveHysteresis.Some? ==> c.adaptiveHysteresis.value >= 0.0)
    && (c.adaptiveThresholds.Some? ==> Thresholds(c.adaptiveThresholds.value))
  }

  predicate Thresholds(t: seq<real>) {
    |t| == 2 && 0.0 < t[0] < t[1]
  }

  predicate AtrParameters(c: BrickConfiguration) {
    AtLeastOne(c.atrPeriod) && (c.atrMultiplier.Some? ==> Positive(c.atrMultiplier))
  }

  predicate PercentageParameters(c: BrickConfiguration) {
    && StrategyNamed(c.ResolvedStrategy()).Some?
    && Positive(c.percentage) && c.percentage.value <= 100.0 && (c.minimumSize.Some? ==> Positive(c.minimumSize))
  }

  /** A window of zero and empty thresholds stand for the defaults. */
  predicate AdaptiveParameters(c: BrickConfiguration) {
    && c.brickSize > 0.0 && PercentageParameters(c) && AtrParameters(c)
    && (c.adaptiveWindow.Some? ==> c.adaptiveWindow.value >= 0)
    && (c.adaptiveHysteresis.Some? ==> c.adaptiveHysteresis.value >= 0.0)
    && (c.adaptiveThresholds.GetOr([]) != [] ==> Thresholds(c.adaptiveThresholds.value))
  }

  /** The provider a configuration asks for: the one it names, else the one its brick type stands for. */
  predicate AsksFor(c: BrickConfiguration, name: string) {
    if c.provider.Some? && c.provider.value != "" then c.provider.value == name
    else if c.brickType.AverageTrueRange? then name == "atr"
    else if c.brickType.Percentage? then name == "percentage"
    else name == "fixed"
  }

  /** A provider is built exactly from a configuration that asks for a registered kind and has the
      parameters of that kind in order. */
  lemma BuildsIff(c: BrickConfiguration)
    ensures BuildProvider(c).Some? <==>
            || (AsksFor(c, "fixed") && c.brickSize > 0.0)
            || (AsksFor(c, "atr") && AtrParameters(c))
            || (AsksFor(c, "percentage") && PercentageParameters(c))
            || (AsksFor(c, "adaptive") && AdaptiveParameters(c))
  {
    LeavesBuildIff(c);
  }

  /** And it has those parameters: the brick size, the period and multiplier, the percentage with its
      rounding, minimum and strategy; for an adaptive one all of them, and its own with their defaults. */
  lemma BuiltWithItsParameters(c: BrickConfiguration)
    requires BuildProvider(c).Some?
    ensures var p := BuildProvider(c).value;
            match p
            case Fixed(size) => AsksFor(c, "fixed") && size == c.brickSize
            case ByAtr(s) => AsksFor(c, "atr") && IsAtrOf(s, c)
            case ByPercentage(s) => AsksFor(c, "percentage") && IsPercentageOf(s, c)
            case Adaptive(s) =>
              && AsksFor(c, "adaptive") && s.low == c.brickSize && IsAtrOf(s.high, c) && IsPercentageOf(s.medium, c)
              && s.window == (if c.adaptiveWindow.Some? && c.adaptiveWindow.value != 0 then c.adaptiveWindow.value else 14)
              && s.band.h == c.adaptiveHysteresis.GetOr(0.0)
              && (if c.adaptiveThresholds.Some? && c.adaptiveThresholds.value != []
                  then c.adaptiveThresholds.value == [s.band.t1, s.band.t2] else s.band.t1 == 1.0 && s.band.t2 == 2.0)
  {
    if StrategyNamed(c.ResolvedStrategy()).Some? {
      StrategyNamesAgree(c.ResolvedStrategy());
    }
  }

  predicate IsAtrOf(s: AtrState, c: BrickConfiguration) {
    Some(s.period) == c.atrPeriod && s.multiplier == (if c.atrMultiplier.Some? then c.atrMultiplier.value else 1.0)
  }

  /** The strategy is the named one, or else the one that refers to the configured price. */
  predicate IsPercentageOf(s: PercentageState, c: BrickConfiguration) {
    && Some(s.percentage) == c.percentage && s.rounding == c.rounding && s.minimum == c.minimumSize
    && if c.referenceStrategy.Some? && c.referenceStrategy.value != "" then StrategyName(s.strategy) == c.referenceStrategy.value
       else match c.referencePrice
            case None => s.strategy.ByClose?
            case Some(RefClose) => s.strategy.ByClose?
            case Some(RefOpen) => s.strategy.ByOpen?
            case Some(RefHigh) => s.strategy.ByHigh?
            case Some(RefLow) => s.strategy.ByLow?
            case Some(RefTypical) => s.strategy.ByTypical?
            case Some(RefMedian) => s.strategy.ByMedian?
  }

  /** What counts as no entry at all. */
  predicate Empty(v: Value) {
    || v in {Null, Flag(false), Int(0), Num(0.0), Str(Literal("")), Enum(Literal("")), List([]), Tuple([]), Dict(map[])}
    || (v.Opaque? && !v.truthy)
  }

  /** The builder a configuration asks for: first as builder type, then as builder, then in its metadata, as
      a text or an enum member, and the traditional one without any of these. */
  predicate AsksForBuilder(c: BrickConfiguration, name: string) {
    if c.builderType.GetOr("") != "" then c.builderType.value == name
    else if c.builder.GetOr("") != "" then c.builder.value == name
    else if BUILDER_TYPE in c.metadata && !Empty(c.metadata[BUILDER_TYPE]) then
      c.metadata[BUILDER_TYPE] == Str(Literal(name)) || c.metadata[BUILDER_TYPE] == Enum(Literal(name))
    else name == "traditional"
  }

  /** An engine exists exactly where a provider does and one of the two builders is asked for, and it has
      that builder, unused. */
  lemma BuilderIsChosen(c: BrickConfiguration, bus: bool)
    ensures Fresh(c, bus).Some? <==>
            BuildProvider(c).Some? && (AsksForBuilder(c, "traditional") || AsksForBuilder(c, "hybrid"))
    ensures Fresh(c, bus).Some? ==>
              var e := Fresh(c, bus).value;
              && (e.builder == TraditionalBuilder <==> AsksForBuilder(c, "traditional"))
              && (e.builder == HybridBuilder(0) <==> AsksForBuilder(c, "hybrid"))
              && e.provider == BuildProvider(c) && e.configuration == Some(c) && e.bus == bus
              && e.history == [] && e.pendingOpen.None? && e.publishedSize.None? && e.events == []
              && e.state == Some(BrickState(Neutral, 0.0, c.brickSize, false, map[]))
  {
    hide BuildProvider, Truthy, Empty;
    TruthyIff(c.metadata);
  }

  lemma TruthyIff(entries: map<Key, Value>)
    ensures BUILDER_TYPE in entries ==> (Truthy(entries[BUILDER_TYPE]) <==> !Empty(entries[BUILDER_TYPE]))
  {
  }

  lemma LeavesBuildIff(c: BrickConfiguration)
    ensures BuildPercentage(c).Some? <==> PercentageParameters(c)
    ensures BuildAtr(c).Some? <==> AtrParameters(c)
  {
  }

  /** What the validator never looks at: the ATR parameters of a provider chosen by name, and the
      multiplier, the upper limit and the minimum of an adaptive one's children. */
  predicate Unchecked(c: BrickConfiguration) {
    && (c.ResolvedProvider() == "atr" ==> AtrParameters(c))
    && (c.ResolvedProvider() == "adaptive" ==>
          && (c.atrMultiplier.Some? ==> Positive(c.atrMultiplier))
          && (c.percentage.Some? ==> c.percentage.value <= 100.0)
          && (c.minimumSize.Some? ==> Positive(c.minimumSize)))
  }

  /** A configuration that passes gives an engine exactly when those are in order too. */
  lemma ValidatedBuildsIff(c: BrickConfiguration, bus: bool)
    requires Passes(c)
    ensures Fresh(c, bus).Some? <==> Unchecked(c)
  {
    hide BuildProvider, BuilderNamed, StrategyNamed;
    BuildsIff(c);
  }

  /** The other way about: of the configurations an engine can be built from, the validator refuses those with
      no positive brick size, with a brick type whose own parameters are missing or out of range, with a
      percentage but no reference price, with an unregistered strategy, and with a window of zero or empty
      thresholds where these are looked at. */
  lemma BuildableIsRefusedIff(c: BrickConfiguration, bus: bool)
    requires Fresh(c, bus).Some?
    ensures !Passes(c) <==>
            || c.brickSize <= 0.0
            || (match c.brickType
                case Traditional => false
                case AverageTrueRange => c.atrPeriod.GetOr(0) < 1 || c.atrMultiplier.GetOr(1.0) <= 0.0
                case Percentage => c.percentage.GetOr(0.0) <= 0.0
                case Mean => c.meanLookback.GetOr(0) < 1
                case Median => c.medianLookback.GetOr(0) < 1
                case Hybrid => c.hybridWeight.GetOr(-1.0) < 0.0 || c.hybridWeight.GetOr(-1.0) > 1.0
                case Ai => c.aiModel.GetOr("") == "")
            || (AsksFor(c, "percentage") && c.referencePrice.None?)
            || StrategyNamed(c.ResolvedStrategy()).None?
            || (AsksFor(c, "adaptive") && (c.adaptiveWindow == Some(0) || c.adaptiveThresholds == Some([])))
  {
    hide BuildProvider, BuilderNamed, StrategyNamed, BrickConfiguration.ResolvedStrategy, BrickConfiguration.ResolvedBuilder;
    BuildsIff(c);
  }

  /** Asking for the ATR provider by name, and for nothing else. */
  function AtrByName(): BrickConfiguration {
    BrickConfiguration(Traditional, 1.0, FromClose, Live, None, None, Some("atr"), None, None, None, Some(RefClose), None,
                       None, NoRounding, None, None, None, None, None, None, None, map[])
  }

  /** It passes, and nothing can be built from it. */
  lemma AtrByNamePassesUnbuilt(bus: bool)
    ensures Passes(AtrByName()) && Fresh(AtrByName(), bus).None?
  {
    hide Fresh;
    ValidatedBuildsIff(AtrByName(), bus);
  }
}
