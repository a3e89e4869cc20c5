/** The provider objects: rolling state updated in place, candle by candle. */
module BrickSizeProviders {
  import opened Common
  import opened PlainValue
  import opened RenkoModels
  import opened RenkoCodec
  import opened RegimeClassifier
  import opened RenkoProviders

  class AtrBrickSizeProvider {
    const period: int
    const multiplier: real
    var prevClose: Option<real>
    var warmupSum: real
    var count: int
    var atr: Option<real>

    function View(): AtrState
      reads this
    {
      AtrState(period, multiplier, prevClose, warmupSum, count, atr)
    }

    constructor (s: AtrState)
      requires s.Valid()
      ensures View() == s.Reset()
    {
      period, multiplier := s.period, s.multiplier;
      prevClose, warmupSum, count, atr := None, 0.0, 0, None;
    }

    /** Returns false, having changed nothing, for a candle without a price. */
    method Update(c: Candle) returns (ok: bool)
      requires View().Valid()
      modifies this
      ensures ok == CandlePrices(c).Some?
      ensures View() == if ok then AtrUpdate(old(View()), CandlePrices(c).value) else old(View())
    {
      var prices := CandlePrices(c);
      if prices.None? {
        return false;
      }
      var p := prices.value;
      var tr := p.high - p.low;
      if prevClose.Some? {
        tr := Max(Max(tr, Abs(p.high - prevClose.value)), Abs(p.low - prevClose.value));
      }
      if atr.None? {
        warmupSum := warmupSum + tr;
        count := count + 1;
        if count >= period {
          atr := Some(Average(warmupSum, period));
        }
      } else {
        atr := Some(Wilder(atr.value, tr, period));
      }
      prevClose := Some(p.close);
      ok := true;
    }

    method Reset()
      modifies this
      ensures View() == old(View()).Reset()
    {
      prevClose, warmupSum, count, atr := None, 0.0, 0, None;
    }

    /** Field after field. The stored state of a provider with the same parameters is taken over
        whole, whatever was there before; a value that does not convert leaves the level alone and
        what was assigned before it in place. */
    method ImportState(data: map<Key, Value>) returns (ok: bool)
      modifies this
      ensures forall s: AtrState | s.Reset() == old(View()).Reset() && data == s.Export() :: ok && View() == s
      ensures ok == old(View()).Import(data).Some?
      ensures ok ==> View() == old(View()).Import(data).value
      ensures !ok ==> atr == old(atr)
      ensures prevClose == ToReal(Field(data, OfPart(PrevClose), Null)).GetOr(old(prevClose))
    {
      ExportImportInto(View(), data);
      var prev := ToReal(Field(data, OfPart(PrevClose), Null));
      if prev.None? {
        return false;
      }
      prevClose := prev.value;
      var sum := ToReal(Field(data, OfPart(WarmupSum), Num(0.0)));
      if sum.None? {
        return false;
      }
      warmupSum := sum.value.GetOr(0.0);
      var seen := ToInt(Field(data, OfPart(Count), Int(0)));
      if seen.None? {
        return false;
      }
      count := seen.value.GetOr(0);
      var level := ToReal(Field(data, OfPart(Atr), Null));
      if level.None? {
        return false;
      }
      atr := level.value;
      ok := true;
    }
  }

  lemma ExportImportInto(t: AtrState, data: map<Key, Value>)
    ensures forall s: AtrState | s.Reset() == t.Reset() && data == s.Export() :: t.Import(data) == Some(s)
  {
    forall s: AtrState | s.Reset() == t.Reset() && data == s.Export() ensures t.Import(data) == Some(s) {
      AtrExportImport(s);
      assert t.Import(data) == t.Reset().Import(data);
    }
  }

  class PercentageBrickSizeProvider {
    const percentage: real
    const strategy: Strategy
    const rounding: RoundingMode
    const minimum: Option<real>
    var size: Option<real>

    function View(): PercentageState
      reads this
    {
      PercentageState(percentage, strategy, rounding, minimum, size)
    }

    constructor (s: PercentageState)
      requires s.Valid()
      ensures View() == s.Reset()
    {
      percentage, strategy, rounding, minimum := s.percentage, s.strategy, s.rounding, s.minimum;
      size := None;
    }

    method Update(c: Candle) returns (ok: bool)
      modifies this
      ensures ok == CandlePrices(c).Some?
      ensures View() == if ok then PercentageUpdate(old(View()), CandlePrices(c).value) else old(View())
    {
      var prices := CandlePrices(c);
      if prices.None? {
        return false;
      }
      var raw := Share(ReferenceOf(strategy, prices.value), percentage);
      var candidate := ApplyRounding(rounding, raw);
      if minimum.Some? {
        candidate := Max(candidate, minimum.value);
      }
      if candidate <= 0.0 {
        candidate := raw;
      }
      if candidate > 0.0 {
        size := Some(candidate);
      }
      ok := true;
    }

    method Reset()
      modifies this
      ensures View() == old(View()).Reset()
    {
      size := None;
    }

    method ImportState(data: map<Key, Value>) returns (ok: bool)
      modifies this
      ensures ok == old(View()).Import(data).Some?
      ensures View() == if ok then old(View()).Import(data).value else old(View())
    {
      var stored := ToReal(Field(data, OfPart(CurrentSize), Null));
      if stored.None? {
        return false;
      }
      size := stored.value;
      ok := true;
    }
  }

  class AdaptiveBrickSizeProvider {
    const low: real
    const medium: PercentageBrickSizeProvider
    const high: AtrBrickSizeProvider
    const window: int
    const band: Band
    var stat: Option<real>
    var prevClose: Option<real>
    var regime: Option<Regime>
    var count: int

    ghost function Parts(): set<object> {
      {this, medium, high}
    }

    function View(): AdaptiveState
      reads this, medium, high
    {
      AdaptiveState(low, medium.View(), high.View(), window, band, stat, prevClose, regime, count)
    }

    constructor (s: AdaptiveState)
      requires s.Valid()
      ensures View() == s.Reset() && fresh(Parts())
    {
      low, window, band := s.low, s.window, s.band;
      var m := new PercentageBrickSizeProvider(s.medium);
      var h := new AtrBrickSizeProvider(s.high);
      medium, high := m, h;
      stat, prevClose, regime, count := None, None, None, 0;
    }

    /** Every child takes the candle, then the statistic moves and the regime is re-read. */
    method Update(c: Candle) returns (ok: bool)
      requires View().Valid()
      modifies Parts()
      ensures ok == CandlePrices(c).Some?
      ensures View() == if ok then AdaptiveUpdate(old(View()), CandlePrices(c).value) else old(View())
    {
      hide PercentageUpdate, AtrUpdate, PercentageState.Valid, AtrState.Reset;
      ok := medium.Update(c);
      if !ok {
        return;
      }
      ok := high.Update(c);
      var p := CandlePrices(c).value;
      var tr := p.high - p.low;
      if prevClose.Some? {
        tr := Max(Max(tr, Abs(p.high - prevClose.value)), Abs(p.low - prevClose.value));
      }
      assert tr == TrueRange(p, prevClose);
      stat := Some(Smoothed(window, stat, tr));
      prevClose := Some(p.close);
      count := count + 1;
      regime := Some(Detect(band, stat.value, regime));
    }

    method Reset()
      modifies Parts()
      ensures View() == old(View()).Reset()
    {
      stat, prevClose, regime, count := None, None, None, 0;
      medium.Reset();
      high.Reset();
    }

    /** The provider's own fields first, then its children; where a value does not convert the import
        stops there. */
    method ImportState(data: map<Key, Value>) returns (ok: bool)
      modifies Parts()
      ensures ok == old(View()).Import(data).Some?
      ensures ok ==> View() == old(View()).Import(data).value
      ensures View().Reset() == old(View()).Reset()
    {
      hide AtrState.Import, PercentageState.Import, ToRegime;
      if data == map[] {
        return true;
      }
      var level := ToReal(Field(data, OfPart(Stat), Null));
      if level.None? {
        return false;
      }
      stat := level.value;
      var prev := ToReal(Field(data, OfPart(PrevClose), Null));
      if prev.None? {
        return false;
      }
      prevClose := prev.value;
      var current := ToRegime(Field(data, OfPart(PartField.Regime), Null));
      if current.None? {
        return false;
      }
      regime := current.value;
      var seen := ToInt(Field(data, OfPart(Count), Int(0)));
      if seen.None? {
        return false;
      }
      count := seen.value.GetOr(0);
      var children := StoredChildren(data);
      if children.None? {
        return false;
      }
      ok := ImportChildren(children.value);
    }

    method ImportChildren(children: map<Key, Value>) returns (ok: bool)
      modifies medium, high
      ensures ok == (old(View()).ImportMedium(children).Some? && old(View()).ImportHigh(children).Some?)
      ensures ok ==> medium.View() == old(View()).ImportMedium(children).value
      ensures ok ==> high.View() == old(View()).ImportHigh(children).value
      ensures medium.View().Reset() == old(medium.View()).Reset() && high.View().Reset() == old(high.View()).Reset()
    {
      hide AtrState.Import, PercentageState.Import;
      ok := true;
      if OfPart(PartField.Medium) in children {
        match children[OfPart(PartField.Medium)]
        case Dict(entries) => ok := medium.ImportState(entries);
        case _ => ok := false;
      }
      if ok && OfPart(PartField.High) in children {
        match children[OfPart(PartField.High)]
        case Dict(entries) => ok := high.ImportState(entries);
        case _ => ok := false;
      }
    }
  }

  /** A live provider. The fixed one has no state of its own to update. */
  datatype SizeProvider =
    | FixedSize(size: real)
    | AtrSizes(atr: AtrBrickSizeProvider)
    | PercentageSizes(percentage: PercentageBrickSizeProvider)
    | AdaptiveSizes(adaptive: AdaptiveBrickSizeProvider)
  {
    ghost function Parts(): set<object> {
      match this
      case FixedSize(_) => {}
      case AtrSizes(p) => {p}
      case PercentageSizes(p) => {p}
      case AdaptiveSizes(p) => p.Parts()
    }

    ghost function View(): Provider
      reads Parts()
    {
      match this
      case FixedSize(size) => Fixed(size)
      case AtrSizes(p) => ByAtr(p.View())
      case PercentageSizes(p) => ByPercentage(p.View())
      case AdaptiveSizes(p) => Adaptive(p.View())
    }

    function Name(): (r: string)
      reads Parts()
      ensures r == View().Name()
    {
      match this
      case FixedSize(_) => "fixed"
      case AtrSizes(_) => "atr"
      case PercentageSizes(_) => "percentage"
      case AdaptiveSizes(_) => "adaptive"
    }

    function StrategyInUse(): (r: Option<string>)
      reads Parts()
      ensures r == View().StrategyInUse()
    {
      match this
      case PercentageSizes(p) => Some(StrategyName(p.strategy))
      case _ => None
    }

    method Update(c: Candle) returns (ok: bool)
      requires View().Valid()
      modifies Parts()
      ensures ok == old(View()).Update(c).Some?
      ensures View() == if ok then old(View()).Update(c).value else old(View())
    {
      hide AdaptiveUpdate, PercentageUpdate, AtrUpdate, CandlePrices;
      ok := true;
      match this
      case FixedSize(_) =>
      case AtrSizes(p) => ok := p.Update(c);
      case PercentageSizes(p) => ok := p.Update(c);
      case AdaptiveSizes(p) => ok := p.Update(c);
    }

    /** The size, if the provider is ready. */
    method CurrentSize() returns (size: Option<real>)
      ensures size == View().Size()
    {
      match this
      case FixedSize(s) => size := Some(s);
      case AtrSizes(p) => size := AtrSize(p.View());
      case PercentageSizes(p) => size := p.size;
      case AdaptiveSizes(p) =>
        size := None;
        if p.medium.size.Some? && p.high.atr.Some? {
          match p.regime
          case Some(Medium) => size := p.medium.size;
          case Some(High) => size := AtrSize(p.high.View());
          case _ => size := Some(p.low);
        }
    }

    method Reset()
      modifies Parts()
      ensures View() == old(View()).Reset()
    {
      match this
      case FixedSize(_) =>
      case AtrSizes(p) => p.Reset();
      case PercentageSizes(p) => p.Reset();
      case AdaptiveSizes(p) => p.Reset();
    }

    method ExportState() returns (data: map<Key, Value>)
      ensures data == View().Export()
    {
      match this
      case FixedSize(_) => data := map[];
      case AtrSizes(p) => data := p.View().Export();
      case PercentageSizes(p) => data := p.View().Export();
      case AdaptiveSizes(p) => data := p.View().Export();
    }

    method ImportState(data: map<Key, Value>) returns (ok: bool)
      modifies Parts()
      ensures ok == old(View()).Import(data).Some?
      ensures ok ==> View() == old(View()).Import(data).value
      ensures View().Reset() == old(View()).Reset()
    {
      hide AtrState.Import, PercentageState.Import, AdaptiveState.Import;
      ok := true;
      match this
      case FixedSize(_) =>
      case AtrSizes(p) => ok := p.ImportState(data);
      case PercentageSizes(p) => ok := p.ImportState(data);
      case AdaptiveSizes(p) => ok := p.ImportState(data);
    }
  }

  /** The registry's factories: a provider object in the state the configuration calls for. */
  method CreateProvider(p: Provider) returns (r: SizeProvider)
    requires p.Valid() && p.Reset() == p
    ensures r.View() == p && fresh(r.Parts())
  {
    match p
    case Fixed(size) => r := FixedSize(size);
    case ByAtr(s) =>
      var a := new AtrBrickSizeProvider(s);
      r := AtrSizes(a);
    case ByPercentage(s) =>
      var a := new PercentageBrickSizeProvider(s);
      r := PercentageSizes(a);
    case Adaptive(s) =>
      var a := new AdaptiveBrickSizeProvider(s);
      r := AdaptiveSizes(a);
  }
}
