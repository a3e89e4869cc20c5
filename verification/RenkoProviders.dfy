/** The brick-size providers: what one candle does to each, and their persisted state. */
module RenkoProviders {
  import opened Common
  import opened PlainValue
  import opened RenkoModels
  import opened RenkoCodec
  import opened RegimeClassifier

  // ---- price-reference strategies ------------------------------------------

  datatype Strategy = ByClose | ByOpen | ByHigh | ByLow | ByTypical | ByMean | ByMedian

  /** The built-in strategy registry. */
  function StrategyNamed(name: string): Option<Strategy> {
    if name == "close" then Some(ByClose)
    else if name == "open" then Some(ByOpen)
    else if name == "high" then Some(ByHigh)
    else if name == "low" then Some(ByLow)
    else if name == "typical" then Some(ByTypical)
    else if name == "mean" then Some(ByMean)
    else if name == "median" then Some(ByMedian)
    else None
  }

  function StrategyName(s: Strategy): string {
    match s
    case ByClose => "close"
    case ByOpen => "open"
    case ByHigh => "high"
    case ByLow => "low"
    case ByTypical => "typical"
    case ByMean => "mean"
    case ByMedian => "median"
  }

  function ReferenceOf(s: Strategy, p: Prices): real {
    match s
    case ByClose => p.close
    case ByOpen => p.open
    case ByHigh => p.high
    case ByLow => p.low
    case ByTypical => (p.high + p.low + p.close) / 3.0
    case ByMean => (p.open + p.high + p.low + p.close) / 4.0
    case ByMedian => (p.high + p.low) / 2.0
  }

  // ---- ATR -----------------------------------------------------------------

  datatype AtrState = AtrState(period: int, multiplier: real, prevClose: Option<real>,
                               warmupSum: real, count: int, atr: Option<real>)
  {
    predicate Valid() {
      period >= 1 && multiplier > 0.0
    }

    function Reset(): AtrState {
      AtrState(period, multiplier, None, 0.0, 0, None)
    }

    function Export(): map<Key, Value> {
      map[OfPart(PrevClose) := FromReal(prevClose), OfPart(WarmupSum) := Num(warmupSum),
          OfPart(Count) := Int(count), OfPart(Atr) := FromReal(atr)]
    }

    function Import(data: map<Key, Value>): Option<AtrState> {
      var prev := ToReal(Field(data, OfPart(PrevClose), Null));
      var sum := ToReal(Field(data, OfPart(WarmupSum), Num(0.0)));
      var seen := ToInt(Field(data, OfPart(Count), Int(0)));
      var level := ToReal(Field(data, OfPart(Atr), Null));
      if prev.Some? && sum.Some? && seen.Some? && level.Some?
      then Some(AtrState(period, multiplier, prev.value, sum.value.GetOr(0.0), seen.value.GetOr(0), level.value))
      else None
    }
  }

  function TrueRange(p: Prices, prevClose: Option<real>): real {
    match prevClose
    case None => p.high - p.low
    case Some(c) => Max(Max(p.high - p.low, Abs(p.high - c)), Abs(p.low - c))
  }

  /** Warm-up averages the first period ranges; afterwards Wilder's smoothing. */
  function AtrUpdate(s: AtrState, p: Prices): AtrState
    requires s.period >= 1
  {
    AtrAbsorb(s, TrueRange(p, s.prevClose)).(prevClose := Some(p.close))
  }

  function Average(sum: real, n: int): real
    requires n >= 1
  {
    sum / Real(n)
  }

  /** Wilder's smoothing of an average over n ranges by one more. */
  function Wilder(level: real, tr: real, n: int): real
    requires n >= 1
  {
    (level * Real(n - 1) + tr) / Real(n)
  }

  function AtrAbsorb(s: AtrState, tr: real): AtrState
    requires s.period >= 1
  {
    match s.atr
    case None =>
      var sum, count := s.warmupSum + tr, s.count + 1;
      s.(warmupSum := sum, count := count, atr := if count >= s.period then Some(Average(sum, s.period)) else None)
    case Some(level) =>
      s.(atr := Some(Wilder(level, tr, s.period)))
  }

  // ---- percentage ------------------------------------------------------------

  datatype PercentageState = PercentageState(percentage: real, strategy: Strategy, rounding: RoundingMode,
                                             minimum: Option<real>, size: Option<real>)
  {
    predicate Valid() {
      && 0.0 < percentage <= 100.0
      && (minimum.Some? ==> minimum.value > 0.0)
    }

    function Reset(): PercentageState {
      this.(size := None)
    }

    function Export(): map<Key, Value> {
      map[OfPart(CurrentSize) := FromReal(size)]
    }

    function Import(data: map<Key, Value>): Option<PercentageState> {
      var stored := ToReal(Field(data, OfPart(CurrentSize), Null));
      if stored.Some? then Some(this.(size := stored.value)) else None
    }
  }

  function ApplyRounding(mode: RoundingMode, x: real): real {
    match mode
    case NoRounding => x
    case FloorDown => Real(x.Floor)
    case CeilUp => Real(-((-x).Floor))
    case HalfUp => Real((x + 0.5).Floor)
  }

  function Share(reference: real, percentage: real): real {
    reference * (percentage / 100.0)
  }

  /** The size for a reference price; None when the price gives no positive size. */
  function PercentageSize(s: PercentageState, reference: real): Option<real> {
    var raw := Share(reference, s.percentage);
    var rounded := ApplyRounding(s.rounding, raw);
    var raised := if s.minimum.Some? then Max(rounded, s.minimum.value) else rounded;
    var size := if raised <= 0.0 then raw else raised;
    if size <= 0.0 then None else Some(size)
  }

  function PercentageUpdate(s: PercentageState, p: Prices): PercentageState {
    var size := PercentageSize(s, ReferenceOf(s.strategy, p));
    if size.Some? then s.(size := size) else s
  }

  // ---- adaptive --------------------------------------------------------------

  datatype AdaptiveState = AdaptiveState(low: real, medium: PercentageState, high: AtrState,
                                         window: int, band: Band, stat: Option<real>,
                                         prevClose: Option<real>, regime: Option<Regime>, count: int)
  {
    predicate Valid() {
      low > 0.0 && medium.Valid() && high.Valid() && window >= 1 && band.Valid()
    }

    function Reset(): AdaptiveState {
      AdaptiveState(low, medium.Reset(), high.Reset(), window, band, None, None, None, 0)
    }

    function Export(): map<Key, Value> {
      map[OfPart(Stat) := FromReal(stat), OfPart(PrevClose) := FromReal(prevClose),
          OfPart(PartField.Regime) := FromRegime(regime), OfPart(Count) := Int(count),
          OfPart(Sub) := Dict(ExportChildren(this))]
    }

    /** An empty dictionary leaves the provider alone; a child absent from "sub" keeps its state. */
    function Import(data: map<Key, Value>): Option<AdaptiveState> {
      if data == map[] then Some(this) else
        var own := ImportOwn(data);
        var children := StoredChildren(data);
        if own.None? || children.None? then None
        else
          var medium', high' := ImportMedium(children.value), ImportHigh(children.value);
          if medium'.Some? && high'.Some? then Some(own.value.(medium := medium'.value, high := high'.value)) else None
    }

    /** The statistic, the last close, the regime and the count. */
    function ImportOwn(data: map<Key, Value>): Option<AdaptiveState> {
      var level := ToReal(Field(data, OfPart(Stat), Null));
      var prev := ToReal(Field(data, OfPart(PrevClose), Null));
      var current := ToRegime(Field(data, OfPart(PartField.Regime), Null));
      var seen := ToInt(Field(data, OfPart(Count), Int(0)));
      if level.Some? && prev.Some? && current.Some? && seen.Some?
      then Some(this.(stat := level.value, prevClose := prev.value, regime := current.value, count := seen.value.GetOr(0)))
      else None
    }

    function ImportMedium(children: map<Key, Value>): Option<PercentageState> {
      if OfPart(PartField.Medium) !in children then Some(medium)
      else
        match children[OfPart(PartField.Medium)]
        case Dict(entries) => medium.Import(entries)
        case _ => None
    }

    function ImportHigh(children: map<Key, Value>): Option<AtrState> {
      if OfPart(PartField.High) !in children then Some(high)
      else
        match children[OfPart(PartField.High)]
        case Dict(entries) => high.Import(entries)
        case _ => None
    }

    function CurrentSize(): Option<real> {
      match regime
      case Some(Medium) => medium.size
      case Some(High) => AtrSize(high)
      case _ => Some(low)
    }

    predicate Ready() {
      medium.size.Some? && high.atr.Some?
    }
  }

  /** What is stored under "sub"; nothing there, and anything empty, stores no child. */
  function StoredChildren(data: map<Key, Value>): Option<map<Key, Value>> {
    var sub := Field(data, OfPart(Sub), Dict(map[]));
    if !Truthy(sub) then Some(map[])
    else if sub.Dict? then Some(sub.entries)
    else None
  }

  function FromRegime(r: Option<Regime>): Value {
    match r
    case None => Null
    case Some(Low) => Str(Literal("low"))
    case Some(Medium) => Str(Literal("medium"))
    case Some(High) => Str(Literal("high"))
  }

  function ToRegime(v: Value): Option<Option<Regime>> {
    match v
    case Null => Some(None)
    case Str(Literal(s)) =>
      if s == "low" then Some(Some(Regime.Low))
      else if s == "medium" then Some(Some(Regime.Medium))
      else if s == "high" then Some(Some(Regime.High))
      else None
    case _ => None
  }

  function AtrSize(s: AtrState): Option<real> {
    match s.atr
    case None => None
    case Some(level) => Some(level * s.multiplier)
  }

  /** The exponential average of the true range. */
  function Smoothed(window: int, stat: Option<real>, tr: real): real
    requires window >= 1
  {
    match stat
    case None => tr
    case Some(before) =>
      var alpha := 2.0 / Real(window + 1);
      alpha * tr + (1.0 - alpha) * before
  }

  function AdaptiveUpdate(s: AdaptiveState, p: Prices): AdaptiveState
    requires s.high.period >= 1 && s.window >= 1
  {
    var stat := Smoothed(s.window, s.stat, TrueRange(p, s.prevClose));
    AdaptiveState(s.low, PercentageUpdate(s.medium, p), AtrUpdate(s.high, p), s.window, s.band,
                  Some(stat), Some(p.close), Some(Detect(s.band, stat, s.regime)), s.count + 1)
  }

  // ---- the provider contract -------------------------------------------------

  datatype Provider =
    | Fixed(size: real)
    | ByAtr(atr: AtrState)
    | ByPercentage(percentage: PercentageState)
    | Adaptive(adaptive: AdaptiveState)
  {
    predicate Valid() {
      match this
      case Fixed(size) => size > 0.0
      case ByAtr(s) => s.Valid()
      case ByPercentage(s) => s.Valid()
      case Adaptive(s) => s.Valid()
    }

    function Name(): string {
      match this
      case Fixed(_) => "fixed"
      case ByAtr(_) => "atr"
      case ByPercentage(_) => "percentage"
      case Adaptive(_) => "adaptive"
    }

    /** None when the candle has no price field, which every provider but the fixed one refuses. */
    function Update(c: Candle): Option<Provider>
      requires Valid()
    {
      var p := CandlePrices(c);
      match this
      case Fixed(_) => Some(this)
      case ByAtr(s) => if p.Some? then Some(ByAtr(AtrUpdate(s, p.value))) else None
      case ByPercentage(s) => if p.Some? then Some(ByPercentage(PercentageUpdate(s, p.value))) else None
      case Adaptive(s) => if p.Some? then Some(Adaptive(AdaptiveUpdate(s, p.value))) else None
    }

    predicate Ready() {
      match this
      case Fixed(_) => true
      case ByAtr(s) => s.atr.Some?
      case ByPercentage(s) => s.size.Some?
      case Adaptive(s) => s.Ready()
    }

    /** The size is available exactly when the provider is ready. */
    function Size(): (r: Option<real>)
      ensures r.Some? <==> Ready()
    {
      if !Ready() then None else
        match this
        case Fixed(size) => Some(size)
        case ByAtr(s) => AtrSize(s)
        case ByPercentage(s) => s.size
        case Adaptive(s) => s.CurrentSize()
    }

    function Reset(): Provider {
      match this
      case Fixed(_) => this
      case ByAtr(s) => ByAtr(s.Reset())
      case ByPercentage(s) => ByPercentage(s.Reset())
      case Adaptive(s) => Adaptive(s.Reset())
    }

    function Export(): map<Key, Value> {
      match this
      case Fixed(_) => map[]
      case ByAtr(s) => s.Export()
      case ByPercentage(s) => s.Export()
      case Adaptive(s) => s.Export()
    }

    function Import(data: map<Key, Value>): Option<Provider> {
      match this
      case Fixed(_) => Some(this)
      case ByAtr(s) => var r := s.Import(data); if r.Some? then Some(ByAtr(r.value)) else None
      case ByPercentage(s) => var r := s.Import(data); if r.Some? then Some(ByPercentage(r.value)) else None
      case Adaptive(s) => var r := s.Import(data); if r.Some? then Some(Adaptive(r.value)) else None
    }

    /** The strategy name a live provider advertises, if it has a strategy. */
    function StrategyInUse(): Option<string> {
      match this
      case ByPercentage(s) => Some(StrategyName(s.strategy))
      case _ => None
    }
  }

  lemma RegimeTextRoundTrip(r: Option<Regime>)
    ensures ToRegime(FromRegime(r)) == Some(r)
  {
  }

  lemma AtrExportImport(s: AtrState)
    ensures s.Reset().Import(s.Export()) == Some(s)
    ensures JsonSafe(Dict(s.Export()))
  {
  }

  lemma PercentageExportImport(s: PercentageState)
    ensures s.Reset().Import(s.Export()) == Some(s)
    ensures JsonSafe(Dict(s.Export()))
  {
  }

  /** The children's part of an adaptive export. */
  function ExportChildren(s: AdaptiveState): map<Key, Value> {
    map[OfPart(PartField.Low) := Dict(map[]), OfPart(PartField.Medium) := Dict(s.medium.Export()),
        OfPart(PartField.High) := Dict(s.high.Export())]
  }

  lemma ChildrenAreSafe(s: AdaptiveState)
    ensures JsonSafe(Dict(ExportChildren(s)))
  {
    PercentageExportImport(s.medium);
    AtrExportImport(s.high);
  }

  lemma AdaptiveExportFields(s: AdaptiveState)
    ensures var data := s.Export();
            && data != map[] && StoredChildren(data) == Some(ExportChildren(s))
            && s.Reset().ImportOwn(data) == Some(s.Reset().(stat := s.stat, prevClose := s.prevClose, regime := s.regime, count := s.count))
  {
    hide ExportChildren, FromRegime, ToRegime, AtrState.Reset, PercentageState.Reset;
    RegimeTextRoundTrip(s.regime);
    var data := s.Export();
    assert data[OfPart(Sub)] == Dict(ExportChildren(s));
    assert OfPart(Sub) in data;
    SomeChildren(s);
  }

  lemma SomeChildren(s: AdaptiveState)
    ensures ExportChildren(s) != map[]
  {
    hide AtrState.Export, PercentageState.Export;
    assert OfPart(PartField.Low) in ExportChildren(s);
  }

  lemma ChildrenImport(s: AdaptiveState)
    ensures s.Reset().ImportMedium(ExportChildren(s)) == Some(s.medium)
    ensures s.Reset().ImportHigh(ExportChildren(s)) == Some(s.high)
  {
    hide AtrState.Export, PercentageState.Export, AtrState.Import, PercentageState.Import, AtrState.Reset, PercentageState.Reset;
    PercentageExportImport(s.medium);
    AtrExportImport(s.high);
  }

  lemma AdaptiveExportImport(s: AdaptiveState)
    ensures s.Reset().Import(s.Export()) == Some(s)
  {
    hide AdaptiveState.Export, AdaptiveState.ImportOwn, AdaptiveState.ImportMedium, AdaptiveState.ImportHigh, ExportChildren,
      StoredChildren, AtrState.Reset, PercentageState.Reset;
    AdaptiveExportFields(s);
    ChildrenImport(s);
  }

  lemma AdaptiveExportIsSafe(s: AdaptiveState)
    ensures JsonSafe(Dict(s.Export()))
  {
    hide ExportChildren;
    ChildrenAreSafe(s);
    RegimeIsSafe(s.regime);
  }

  lemma RegimeIsSafe(r: Option<Regime>)
    ensures JsonSafe(FromRegime(r))
  {
  }

  /** Importing what was exported into a freshly reset provider restores it exactly, and
      what is exported is JSON-compatible. */
  lemma ExportImport(p: Provider)
    ensures p.Reset().Import(p.Export()) == Some(p)
    ensures JsonSafe(Dict(p.Export()))
  {
    match p
    case Fixed(_) =>
    case ByAtr(s) => AtrExportImport(s);
    case ByPercentage(s) => PercentageExportImport(s);
    case Adaptive(s) => AdaptiveExportImport(s); AdaptiveExportIsSafe(s);
  }

  /** A candle never changes a provider's parameters, only its rolling state. */
  lemma UpdateKeepsParameters(p: Provider, c: Candle)
    requires p.Valid() && p.Update(c).Some?
    ensures p.Update(c).value.Reset() == p.Reset()
    ensures p.Update(c).value.Valid()
  {
  }

  lemma ResetIsStable(p: Provider)
    ensures p.Reset().Reset() == p.Reset()
    ensures p.Reset().Name() == p.Name()
    ensures p.Reset().Valid() == p.Valid()
    ensures p.Reset().StrategyInUse() == p.StrategyInUse()
  {
  }

  // ---- building a provider from a configuration -------------------------------

  function BuildPercentage(c: BrickConfiguration): Option<PercentageState> {
    var strategy := StrategyNamed(c.ResolvedStrategy());
    if strategy.None? || c.percentage.None? then None
    else
      var s := PercentageState(c.percentage.value, strategy.value, c.rounding, c.minimumSize, None);
      if s.Valid() then Some(s) else None
  }

  function BuildAtr(c: BrickConfiguration): Option<AtrState> {
    if c.atrPeriod.None? then None
    else
      var s := AtrState(c.atrPeriod.value, c.atrMultiplier.GetOr(1.0), None, 0.0, 0, None);
      if s.Valid() then Some(s) else None
  }

  function BuildAdaptive(c: BrickConfiguration): Option<AdaptiveState> {
    var medium, high := BuildPercentage(c), BuildAtr(c);
    var window := if c.adaptiveWindow.GetOr(0) == 0 then 14 else c.adaptiveWindow.value;
    var t := if c.adaptiveThresholds.GetOr([]) == [] then [1.0, 2.0] else c.adaptiveThresholds.value;
    if medium.None? || high.None? || |t| != 2 then None
    else
      var s := AdaptiveState(c.brickSize, medium.value, high.value, window,
                             Band(t[0], t[1], c.adaptiveHysteresis.GetOr(0.0)), None, None, None, 0);
      if s.Valid() then Some(s) else None
  }

  const PROVIDER_NAMES: set<string> := {"fixed", "atr", "percentage", "adaptive"}

  /** The built-in registry's factories; None when the name is unknown or a parameter is refused. */
  function BuildProvider(c: BrickConfiguration): Option<Provider> {
    var name := c.ResolvedProvider();
    if name == "fixed" then
      if c.brickSize > 0.0 then Some(Fixed(c.brickSize)) else None
    else if name == "atr" then
      var s := BuildAtr(c); if s.Some? then Some(ByAtr(s.value)) else None
    else if name == "percentage" then
      var s := BuildPercentage(c); if s.Some? then Some(ByPercentage(s.value)) else None
    else if name == "adaptive" then
      var s := BuildAdaptive(c); if s.Some? then Some(Adaptive(s.value)) else None
    else None
  }

  /** What the registry builds is unused, valid, and goes by the names the configuration resolves. */
  lemma BuildProviderFacts(c: BrickConfiguration)
    requires BuildProvider(c).Some?
    ensures var p := BuildProvider(c).value;
            && p.Reset() == p && p.Valid() && p.Name() == c.ResolvedProvider()
            && (p.StrategyInUse().Some? ==> p.StrategyInUse().value == c.ResolvedStrategy())
            && (p.ByPercentage? || p.Adaptive? ==> StrategyNamed(c.ResolvedStrategy()).Some?)
    ensures c.ResolvedProvider() in PROVIDER_NAMES
  {
    var s := StrategyNamed(c.ResolvedStrategy());
    if s.Some? {
      StrategyNamesAgree(c.ResolvedStrategy());
    }
  }

  lemma StrategyNamesAgree(name: string)
    requires StrategyNamed(name).Some?
    ensures StrategyName(StrategyNamed(name).value) == name
  {
  }
}
