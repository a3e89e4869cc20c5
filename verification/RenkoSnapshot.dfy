/** Snapshots: capturing an engine, storing it as JSON, and restoring one that resumes. */
module RenkoSnapshot {
  import opened Common
  import opened PlainValue
  import opened RenkoModels
  import opened RenkoCodec
  import opened RenkoProviders
  import opened RenkoEngine

  const SCHEMA_VERSION := 1
  const ENGINE_TYPE := "traditional"

  datatype EngineState = EngineState(
    schemaVersion: int,
    engineType: string,
    configuration: map<Key, Value>,
    builderState: map<Key, Value>,
    brickHistory: seq<map<Key, Value>>,
    providerState: map<Key, Value>,
    strategyState: map<Key, Value>,
    metadata: map<Key, Value>)

  datatype SnapshotError = Corrupted | Incompatible | VersionMismatch | Refused

  // ---- snapshot() -----------------------------------------------------------------

  function Runtime(e: Engine): map<Key, Value> {
    map[OfRuntime(State) := if e.state.Some? then Dict(StateToDict(e.state.value)) else Null,
        OfRuntime(PendingOpen) := FromReal(e.pendingOpen),
        OfRuntime(Boundary) := FromReal(e.boundary),
        OfRuntime(PublishedSize) := FromReal(e.publishedSize)]
  }

  function Metadata(e: Engine): map<Key, Value> {
    map[OfRuntime(BrickCount) := Int(|e.history|), OfRuntime(EngineRuntime) := Dict(Runtime(e))]
  }

  function EncodeHistory(history: seq<Brick>): seq<map<Key, Value>> {
    seq(|history|, i requires 0 <= i < |history| => BrickToDict(history[i]))
  }

  /** None if the engine has not been configured. The price strategies have no state. */
  function Snapshot(e: Engine): Option<EngineState> {
    if e.configuration.None? then None
    else Some(EngineState(
      SCHEMA_VERSION, ENGINE_TYPE, ConfigurationToDict(e.configuration.value), e.builder.Export(),
      EncodeHistory(e.history), if e.provider.Some? then e.provider.value.Export() else map[],
      map[], Metadata(e)))
  }

  /** A snapshot says what wrote it and how many bricks it holds. */
  lemma SnapshotSays(e: Engine)
    requires e.configuration.Some?
    ensures Snapshot(e).Some?
    ensures var s := Snapshot(e).value;
            && s.schemaVersion == 1 && s.engineType == "traditional" && s.strategyState == map[]
            && |s.brickHistory| == |e.history| && Field(s.metadata, OfRuntime(BrickCount), Null) == Int(|e.history|)
  {
  }

  // ---- the transport format -----------------------------------------------------------

  function Dicts(items: seq<map<Key, Value>>): seq<Value> {
    seq(|items|, i requires 0 <= i < |items| => Dict(items[i]))
  }

  function Part(s: EngineState, f: EngineField): Value {
    match f
    case SchemaVersion => Int(s.schemaVersion)
    case EngineType => Str(Literal(s.engineType))
    case Configuration => Dict(s.configuration)
    case BuilderState => Dict(s.builderState)
    case BrickHistory => List(Dicts(s.brickHistory))
    case ProviderState => Dict(s.providerState)
    case StrategyState => Dict(s.strategyState)
    case Metadata => Dict(s.metadata)
  }

  function ToDict(s: EngineState): map<Key, Value> {
    map f: EngineField :: OfEngine(f) := Part(s, f)
  }

  predicate AllDicts(items: seq<Value>) {
    forall i | 0 <= i < |items| :: items[i].Dict?
  }

  function Entries(items: seq<Value>): seq<map<Key, Value>>
    requires AllDicts(items)
  {
    seq(|items|, i requires 0 <= i < |items| => items[i].entries)
  }

  /** A payload that is no object, misses a required field, or has one of another type is corrupted. */
  function FromDict(v: Value): Result<EngineState, SnapshotError> {
    if !v.Dict? then Err(Corrupted) else
      var version := Field(v.entries, OfEngine(SchemaVersion), Null);
      var kind := Field(v.entries, OfEngine(EngineType), Null);
      var configuration := Field(v.entries, OfEngine(EngineField.Configuration), Null);
      var builder := Field(v.entries, OfEngine(BuilderState), Null);
      var history := Field(v.entries, OfEngine(BrickHistory), Null);
      var provider := Field(v.entries, OfEngine(ProviderState), Null);
      var strategy := Field(v.entries, OfEngine(StrategyState), Null);
      var metadata := Field(v.entries, OfEngine(EngineField.Metadata), Null);
      if version.Int? && kind.Str? && kind.text.Literal? && configuration.Dict? && builder.Dict?
         && history.List? && AllDicts(history.items) && provider.Dict? && strategy.Dict? && metadata.Dict?
      then Ok(EngineState(version.n, kind.text.s, configuration.entries, builder.entries,
                          Entries(history.items), provider.entries, strategy.entries, metadata.entries))
      else Err(Corrupted)
  }

  /** JSON text, by the tree it reads back as. */
  datatype JsonText = JsonText(tree: Value)

  /** json.dumps: None where it would raise. */
  function Dumps(v: Value): Option<JsonText> {
    if Writable(v) then Some(JsonText(Reread(v))) else None
  }

  function Loads(t: JsonText): Value {
    t.tree
  }

  function Serialize(s: EngineState): Option<JsonText> {
    Dumps(Dict(ToDict(s)))
  }

  function Deserialize(t: JsonText): Result<EngineState, SnapshotError> {
    FromDict(Loads(t))
  }

  // ---- validation and restore() ----------------------------------------------------------

  /** Version, engine type, then the configuration block. */
  function Validate(s: EngineState): Result<BrickConfiguration, SnapshotError> {
    if s.schemaVersion != SCHEMA_VERSION then Err(VersionMismatch)
    else if s.engineType != ENGINE_TYPE then Err(Incompatible)
    else
      var c := ConfigurationFromDict(s.configuration);
      if c.None? then Err(Corrupted) else Ok(c.value)
  }

  /** Every component the configuration names is in its registry. */
  predicate Registered(c: BrickConfiguration) {
    && c.ResolvedProvider() in PROVIDER_NAMES
    && StrategyNamed(c.ResolvedStrategy()).Some?
    && BuilderNamed(c.ResolvedBuilder()).Some?
  }

  /** The live components are the ones the configuration names. */
  predicate ComponentsMatch(e: Engine, c: BrickConfiguration) {
    && (e.provider.Some? ==> e.provider.value.Name() == c.ResolvedProvider())
    && c.ResolvedBuilder() == Some(e.builder.Name())
    && (e.provider.Some? && e.provider.value.StrategyInUse().Some? ==>
          e.provider.value.StrategyInUse().value == c.ResolvedStrategy())
  }

  function DecodeHistory(items: seq<map<Key, Value>>): Option<seq<Brick>> {
    if forall i | 0 <= i < |items| :: BrickFromDict(items[i]).Some?
    then Some(seq(|items|, i requires 0 <= i < |items| => BrickFromDict(items[i]).value))
    else None
  }

  function DecodeState(v: Value): Option<Option<BrickState>> {
    match v
    case Null => Some(None)
    case Dict(entries) =>
      var s := StateFromDict(entries);
      if s.Some? then Some(s) else None
    case _ => None
  }

  function ImportProvider(p: Option<Provider>, data: map<Key, Value>): Option<Option<Provider>> {
    if p.None? then Some(None)
    else
      var q := p.value.Import(data);
      if q.Some? then Some(q) else None
  }

  /** restore(): check the components, import their state, rebuild the history and the runtime. */
  function RestoreInto(e: Engine, s: EngineState): Result<Engine, SnapshotError> {
    var c := Validate(s);
    if c.Err? then Err(c.error)
    else if !ComponentsMatch(e, c.value) then Err(Incompatible)
    else Rebuild(e, c.value, s)
  }

  function Rebuild(e: Engine, c: BrickConfiguration, s: EngineState): Result<Engine, SnapshotError> {
    var provider := ImportProvider(e.provider, s.providerState);
    var builder := e.builder.Import(s.builderState);
    if provider.None? || builder.None? then Err(Corrupted)
    else Reinstate(e.(configuration := Some(c), provider := provider.value, builder := builder.value), s)
  }

  function Reinstate(e: Engine, s: EngineState): Result<Engine, SnapshotError> {
    var history := DecodeHistory(s.brickHistory);
    var runtime := Field(s.metadata, OfRuntime(EngineRuntime), Dict(map[]));
    if history.None? || !runtime.Dict? then Err(Corrupted)
    else
      var state := DecodeState(Field(runtime.entries, OfRuntime(State), Null));
      var pending := ToReal(Field(runtime.entries, OfRuntime(PendingOpen), Null));
      var boundary := ToReal(Field(runtime.entries, OfRuntime(Boundary), Null));
      var published := ToReal(Field(runtime.entries, OfRuntime(PublishedSize), Null));
      if state.None? || pending.None? || boundary.None? || published.None? then Err(Corrupted)
      else Ok(e.(state := state.value, history := history.value, pendingOpen := pending.value,
                 boundary := boundary.value, publishedSize := published.value))
  }

  /** SnapshotManager.restore: fresh components from the registries, then restore(). */
  function Restore(s: EngineState, bus: bool): Result<Engine, SnapshotError> {
    var c := Validate(s);
    if c.Err? then Err(c.error)
    else if !Registered(c.value) then Err(Incompatible)
    else
      var provider, builder := BuildProvider(c.value), BuilderNamed(c.value.ResolvedBuilder());
      if provider.None? then Err(Refused)
      else RestoreInto(NewEngine(builder.value, bus).(provider := provider), s)
  }

  function RestoreText(t: JsonText, bus: bool): Result<Engine, SnapshotError> {
    var s := Deserialize(t);
    if s.Err? then Err(s.error) else Restore(s.value, bus)
  }

  // ---- what a stored engine gives back ------------------------------------------------------

  /** What every session keeps: components built from the configuration, and metadata that
      JSON can carry. */
  ghost predicate Storable(e: Engine) {
    && Wired(e)
    && BuildProvider(e.configuration.value) == Some(e.provider.value.Reset())
    && e.configuration.value.ResolvedBuilder() == Some(e.builder.Name())
    && (e.state.Some? ==> JsonSafe(Dict(e.state.value.metadata)))
    && forall i | 0 <= i < |e.history| :: JsonSafe(Dict(e.history[i].metadata))
  }

  /** The engine that comes back: everything but the event trace, its configuration as stored. */
  function Revived(e: Engine): Engine
    requires e.configuration.Some?
  {
    e.(configuration := Some(Stored(e.configuration.value)), events := [])
  }

  /** The same after going through text. */
  function Reopened(e: Engine): Engine
    requires e.configuration.Some?
  {
    e.(configuration := Some(Reloaded(e.configuration.value)), events := [])
  }

  function ReadBackAll(items: seq<map<Key, Value>>): seq<map<Key, Value>> {
    seq(|items|, i requires 0 <= i < |items| => RereadEntries(Dict(items[i])))
  }

  /** An engine state as its text reads back. */
  function ReadBack(s: EngineState): EngineState {
    EngineState(s.schemaVersion, s.engineType, RereadEntries(Dict(s.configuration)), RereadEntries(Dict(s.builderState)),
                ReadBackAll(s.brickHistory), RereadEntries(Dict(s.providerState)),
                RereadEntries(Dict(s.strategyState)), RereadEntries(Dict(s.metadata)))
  }

  lemma ToDictReads(s: EngineState)
    ensures FromDict(Dict(ToDict(s))) == Ok(s)
  {
    var v := ToDict(s);
    assert Entries(Dicts(s.brickHistory)) == s.brickHistory;
    assert v[OfEngine(BrickHistory)] == List(Dicts(s.brickHistory));
  }

  lemma HistoryRereads(items: seq<map<Key, Value>>)
    ensures Reread(List(Dicts(items))) == List(Dicts(ReadBackAll(items)))
  {
    forall i | 0 <= i < |items| ensures Reread(Dicts(items)[i]) == Dicts(ReadBackAll(items))[i] {
      RereadOfDict(Dict(items[i]));
    }
    assert Reread(List(Dicts(items))).items == Dicts(ReadBackAll(items));
  }

  /** Writing a state and reading the text gives the state as JSON reads it; a JSON-compatible
      state comes back as it is. */
  lemma SerializeRoundTrip(s: EngineState)
    ensures Serialize(s).Some? <==> Writable(Dict(ToDict(s)))
    ensures Serialize(s).Some? ==> Deserialize(Serialize(s).value) == Ok(ReadBack(s))
    ensures JsonSafe(Dict(ToDict(s))) ==> Serialize(s).Some? && ReadBack(s) == s
  {
    EntriesReread(s);
    hide Reread, RereadEntries, FromDict, Writable, JsonSafe, ToDict, ReadBack;
    RereadsTo(ToDict(s), ToDict(ReadBack(s)));
    RereadOfDict(Dict(ToDict(s)));
    ToDictReads(ReadBack(s));
    if JsonSafe(Dict(ToDict(s))) {
      SafeStaysAsItIs(Dict(ToDict(s)));
      ToDictReads(s);
    }
  }

  lemma PartsAre(s: EngineState)
    ensures forall f: EngineField :: OfEngine(f) in ToDict(s) && ToDict(s)[OfEngine(f)] == Part(s, f)
    ensures forall k | k in ToDict(s) :: k.OfEngine?
  {
  }

  lemma PartRereads(s: EngineState, f: EngineField)
    ensures Reread(Part(s, f)) == Part(ReadBack(s), f)
  {
    hide RereadEntries;
    match f
    case BrickHistory => HistoryRereads(s.brickHistory);
    case Configuration => RereadOfDict(Dict(s.configuration));
    case BuilderState => RereadOfDict(Dict(s.builderState));
    case ProviderState => RereadOfDict(Dict(s.providerState));
    case StrategyState => RereadOfDict(Dict(s.strategyState));
    case Metadata => RereadOfDict(Dict(s.metadata));
    case _ =>
  }

  lemma EntriesReread(s: EngineState)
    ensures ToDict(s).Keys == ToDict(ReadBack(s)).Keys
    ensures forall k | k in ToDict(s) :: IsText(k) && Reread(ToDict(s)[k]) == ToDict(ReadBack(s))[k]
  {
    hide ToDict, Part, ReadBack, Reread;
    PartsAre(s);
    PartsAre(ReadBack(s));
    forall k | k in ToDict(s) ensures IsText(k) && k in ToDict(ReadBack(s)) && Reread(ToDict(s)[k]) == ToDict(ReadBack(s))[k] {
      assert k == OfEngine(k.engine);
      PartRereads(s, k.engine);
    }
    forall k | k in ToDict(ReadBack(s)) ensures k in ToDict(s) {
      assert k == OfEngine(k.engine);
    }
  }

  lemma BuilderExportImport(b: Builder)
    ensures BuilderNamed(Some(b.Name())).Some?
    ensures BuilderNamed(Some(b.Name())).value.Import(b.Export()) == Some(b)
    ensures JsonSafe(Dict(b.Export()))
  {
  }

  lemma HistoryRoundTrip(history: seq<Brick>)
    requires forall i | 0 <= i < |history| :: JsonSafe(Dict(history[i].metadata))
    ensures DecodeHistory(EncodeHistory(history)) == Some(history)
    ensures JsonSafe(List(Dicts(EncodeHistory(history))))
  {
    hide BrickFromDict, BrickToDict;
    forall i | 0 <= i < |history|
      ensures BrickFromDict(BrickToDict(history[i])) == Some(history[i]) && JsonSafe(Dict(BrickToDict(history[i])))
    {
      BrickRoundTrip(history[i]);
    }
    var items := EncodeHistory(history);
    assert forall i | 0 <= i < |items| :: items[i] == BrickToDict(history[i]);
    assert DecodeHistory(items).value == history;
  }

  lemma RuntimeRoundTrip(e: Engine)
    requires e.state.Some? ==> JsonSafe(Dict(e.state.value.metadata))
    ensures var r := Runtime(e);
            && {OfRuntime(State), OfRuntime(PendingOpen), OfRuntime(Boundary), OfRuntime(PublishedSize)} <= r.Keys
            && DecodeState(r[OfRuntime(State)]) == Some(e.state)
            && ToReal(r[OfRuntime(PendingOpen)]) == Some(e.pendingOpen)
            && ToReal(r[OfRuntime(Boundary)]) == Some(e.boundary)
            && ToReal(r[OfRuntime(PublishedSize)]) == Some(e.publishedSize)
            && JsonSafe(Dict(r))
  {
    hide StateFromDict, StateToDict;
    if e.state.Some? {
      StateRoundTrip(e.state.value);
    }
  }

  /** Apart from the configuration, the snapshot of a storable engine is JSON-compatible. */
  lemma SnapshotPartsAreSafe(e: Engine)
    requires Storable(e)
    ensures var s := Snapshot(e).value;
            && JsonSafe(Dict(s.builderState)) && JsonSafe(List(Dicts(s.brickHistory))) && JsonSafe(Dict(s.providerState))
            && JsonSafe(Dict(s.strategyState)) && JsonSafe(Dict(s.metadata))
            && s.configuration == ConfigurationToDict(e.configuration.value)
  {
    hide ConfigurationToDict, ConfigurationFromDict, EncodeHistory, DecodeHistory, Runtime, BuildProvider;
    hide Builder.Export, Builder.Import, Provider.Export, Provider.Import, DecodeState, ToReal, JsonSafe, Metadata;
    BuilderExportImport(e.builder);
    HistoryRoundTrip(e.history);
    ExportImport(e.provider.value);
    RuntimeRoundTrip(e);
    MetadataIsSafe(e);
    NothingIsSafe();
  }

  lemma MetadataIsSafe(e: Engine)
    requires JsonSafe(Dict(Runtime(e)))
    ensures JsonSafe(Dict(Metadata(e)))
  {
    hide Runtime;
  }

  lemma NothingIsSafe()
    ensures JsonSafe(Dict(map[]))
  {
  }

  /** Its snapshot can be written exactly when JSON can carry the configured metadata, and then reads
      back as the snapshot of the reopened engine. */
  lemma SnapshotIsWritableIff(e: Engine)
    requires Storable(e)
    ensures var s := Snapshot(e).value;
            && (Writable(Dict(ToDict(s))) <==> Carriable(Dict(e.configuration.value.metadata)))
            && (Writable(Dict(ToDict(s))) ==> ReadBack(s) == Snapshot(Reopened(e)).value)
  {
    hide Snapshot, Storable, ConfigurationToDict, Reread, RereadEntries, ReadBackAll, Dicts, JsonSafe, Writable;
    StorableIsConfigured(e);
    SnapshotPartsAreSafe(e);
    var c, s := e.configuration.value, Snapshot(e).value;
    ConfigurationRoundTrip(c);
    PartsDecide(s);
    if Carriable(Dict(c.metadata)) {
      ConfigurationRereads(c);
      PartsReread(s);
      ReopenedSnapshot(e);
    }
  }

  lemma StorableIsConfigured(e: Engine)
    requires Storable(e)
    ensures e.configuration.Some? && Snapshot(e).Some? && Snapshot(Reopened(e)).Some?
  {
  }

  lemma ReopenedSnapshot(e: Engine)
    requires e.configuration.Some?
    ensures Snapshot(Reopened(e)).value
            == Snapshot(e).value.(configuration := ConfigurationToDict(Reloaded(e.configuration.value)))
  {
    hide ConfigurationToDict, EncodeHistory, Builder.Export, Provider.Export;
  }

  lemma PartsDecide(s: EngineState)
    requires JsonSafe(Dict(s.builderState)) && JsonSafe(List(Dicts(s.brickHistory)))
    requires JsonSafe(Dict(s.providerState)) && JsonSafe(Dict(s.strategyState)) && JsonSafe(Dict(s.metadata))
    ensures Writable(Dict(ToDict(s))) <==> Writable(Dict(s.configuration))
  {
    var m := OfEngine(EngineField.Configuration);
    PartsAre(s);
    assert ToDict(s)[m] == Dict(s.configuration);
    hide JsonSafe, Writable, Dicts, ToDict;
    forall k | k in ToDict(s) && k != m ensures JsonSafe(ToDict(s)[k]) && Writable(ToDict(s)[k]) {
      assert k == OfEngine(k.engine);
      OtherPartIsSafe(s, k.engine);
      SafeStaysAsItIs(Part(s, k.engine));
    }
    OneEntryDecides(ToDict(s), m);
  }

  lemma OtherPartIsSafe(s: EngineState, f: EngineField)
    requires JsonSafe(Dict(s.builderState)) && JsonSafe(List(Dicts(s.brickHistory)))
    requires JsonSafe(Dict(s.providerState)) && JsonSafe(Dict(s.strategyState)) && JsonSafe(Dict(s.metadata))
    requires f != EngineField.Configuration
    ensures JsonSafe(Part(s, f))
  {
  }

  lemma PartsReread(s: EngineState)
    requires JsonSafe(Dict(s.builderState)) && JsonSafe(List(Dicts(s.brickHistory)))
    requires JsonSafe(Dict(s.providerState)) && JsonSafe(Dict(s.strategyState)) && JsonSafe(Dict(s.metadata))
    ensures ReadBack(s) == s.(configuration := RereadEntries(Dict(s.configuration)))
  {
    hide RereadEntries, JsonSafe;
    EntriesStay(s.builderState);
    EntriesStay(s.providerState);
    EntriesStay(s.strategyState);
    EntriesStay(s.metadata);
    SafeStaysAsItIs(List(Dicts(s.brickHistory)));
    HistoryRereads(s.brickHistory);
    assert Entries(Dicts(ReadBackAll(s.brickHistory))) == ReadBackAll(s.brickHistory);
    assert Entries(Dicts(s.brickHistory)) == s.brickHistory;
  }

  lemma EntriesStay(m: map<Key, Value>)
    requires JsonSafe(Dict(m))
    ensures RereadEntries(Dict(m)) == m
  {
    hide RereadEntries, JsonSafe;
    SafeStaysAsItIs(Dict(m));
    RereadOfDict(Dict(m));
  }

  lemma BuildProviderFromStored(c: BrickConfiguration)
    ensures BuildProvider(Stored(c)) == BuildProvider(c)
  {
    StoredIsStable(c);
  }

  lemma ComponentsOfStored(e: Engine)
    requires Storable(e)
    ensures var c := Stored(e.configuration.value);
            && BuilderNamed(c.ResolvedBuilder()) == BuilderNamed(Some(e.builder.Name()))
            && BuildProvider(c) == Some(e.provider.value.Reset())
            && (Registered(c) <==> StrategyNamed(e.configuration.value.ResolvedStrategy()).Some?)
            && ComponentsMatch(NewEngine(BuilderNamed(c.ResolvedBuilder()).value, e.bus).(provider := BuildProvider(c)), c)
  {
    var c := e.configuration.value;
    StoredIsStable(c);
    BuildProviderFromStored(c);
    BuildProviderFacts(c);
    BuilderExportImport(e.builder);
  }

  /** Restoring a snapshot succeeds exactly when the configuration's strategy name is registered
      (an engine whose provider uses no strategy runs with any name), and then gives back the
      engine, all but its event trace, configuration metadata JSON-normalised. */
  lemma RestoreSnapshot(e: Engine)
    requires Storable(e)
    ensures var s := Snapshot(e).value;
            Restore(s, e.bus) == if StrategyNamed(e.configuration.value.ResolvedStrategy()).Some?
                                 then Ok(Revived(e)) else Err(Incompatible)
  {
    hide ConfigurationToDict, ConfigurationFromDict, EncodeHistory, RestoreInto, Runtime, BuildProvider, BuilderNamed;
    hide Builder.Export, Provider.Export;
    var c := e.configuration.value;
    var s := Snapshot(e).value;
    ConfigurationRoundTrip(c);
    assert Validate(s) == Ok(Stored(c));
    ComponentsOfStored(e);
    if Registered(Stored(c)) {
      var blank := NewEngine(BuilderNamed(Stored(c).ResolvedBuilder()).value, e.bus).(provider := BuildProvider(Stored(c)));
      RestoreIntoBlank(e, blank);
    }
  }

  lemma RestoreIntoBlank(e: Engine, blank: Engine)
    requires Storable(e)
    requires blank == NewEngine(BuilderNamed(Some(e.builder.Name())).value, e.bus).(provider := Some(e.provider.value.Reset()))
    requires ComponentsMatch(blank, Stored(e.configuration.value))
    ensures RestoreInto(blank, Snapshot(e).value) == Ok(Revived(e))
  {
    hide ConfigurationToDict, ConfigurationFromDict, ComponentsMatch, BuilderNamed, Stored, Rebuild;
    ConfigurationRoundTrip(e.configuration.value);
    BuilderExportImport(e.builder);
    ExportImport(e.provider.value);
    assert Validate(Snapshot(e).value) == Ok(Stored(e.configuration.value));
    RebuildSnapshot(e, blank, Stored(e.configuration.value));
  }

  lemma RebuildSnapshot(e: Engine, blank: Engine, c: BrickConfiguration)
    requires Storable(e)
    requires blank.provider.Some? && blank.provider.value.Import(e.provider.value.Export()) == Some(e.provider.value)
    requires blank.builder.Import(e.builder.Export()) == Some(e.builder)
    requires blank.bus == e.bus && blank.events == []
    ensures Rebuild(blank, c, Snapshot(e).value) == Ok(e.(configuration := Some(c), events := []))
  {
    hide ConfigurationToDict, ConfigurationFromDict, EncodeHistory, DecodeHistory, Runtime, BuildProvider;
    hide Builder.Export, Builder.Import, Provider.Export, Provider.Import, DecodeState, ToReal;
    HistoryRoundTrip(e.history);
    RuntimeRoundTrip(e);
    assert Snapshot(e).value.metadata[OfRuntime(EngineRuntime)] == Dict(Runtime(e));
  }

  /** The snapshot of what a snapshot restores is the same snapshot. */
  lemma SnapshotOfRestored(e: Engine)
    requires Storable(e)
    ensures Snapshot(Revived(e)) == Snapshot(e)
  {
    StoredIsStable(e.configuration.value);
  }

  /** A snapshot of another schema version, or of another kind of engine, is refused whatever
      else it holds; what is restored has the stored configuration, and all its components known. */
  lemma ForeignSnapshotsAreRefused(s: EngineState, bus: bool)
    ensures s.schemaVersion != 1 ==> Restore(s, bus) == Err(VersionMismatch)
    ensures s.schemaVersion == 1 && s.engineType != "traditional" ==> Restore(s, bus) == Err(Incompatible)
    ensures Restore(s, bus).Ok? ==>
              Restore(s, bus).value.configuration == ConfigurationFromDict(s.configuration)
              && Restore(s, bus).value.configuration.Some? && Registered(Restore(s, bus).value.configuration.value)
  {
    hide ConfigurationFromDict, Registered, BuildProvider, ImportProvider, Builder.Import, DecodeHistory;
    hide ComponentsMatch, DecodeState, ToReal;
  }

  /** A live engine refuses a stored configuration as incompatible exactly when that asks for a provider of
      another kind, for a percentage of another price, or for another builder. */
  lemma LiveEngineRefusesIff(e: Engine, s: EngineState)
    requires s.schemaVersion == SCHEMA_VERSION && s.engineType == ENGINE_TYPE && ConfigurationFromDict(s.configuration).Some?
    ensures var c := ConfigurationFromDict(s.configuration).value;
            && (RestoreInto(e, s) == Err(Incompatible) <==>
                  || (e.provider.Some? &&
                      match e.provider.value
                      case Fixed(_) => c.ResolvedProvider() != "fixed"
                      case ByAtr(_) => c.ResolvedProvider() != "atr"
                      case ByPercentage(p) =>
                        c.ResolvedProvider() != "percentage" || StrategyNamed(c.ResolvedStrategy()) != Some(p.strategy)
                      case Adaptive(_) => c.ResolvedProvider() != "adaptive")
                  || c.ResolvedBuilder() != Some(if e.builder.HybridBuilder? then "hybrid" else "traditional"))
            && (RestoreInto(e, s).Ok? ==> RestoreInto(e, s).value.configuration == Some(c))
  {
    hide ConfigurationFromDict, Rebuild, StrategyNamed, StrategyName, BrickConfiguration.ResolvedProvider,
      BrickConfiguration.ResolvedBuilder, BrickConfiguration.ResolvedStrategy;
    var c := ConfigurationFromDict(s.configuration).value;
    RebuildFails(e, c, s);
    if e.provider.Some? && e.provider.value.ByPercentage? {
      NameIsStrategy(c.ResolvedStrategy(), e.provider.value.percentage.strategy);
    }
  }

  lemma RebuildFails(e: Engine, c: BrickConfiguration, s: EngineState)
    ensures Rebuild(e, c, s).Err? ==> Rebuild(e, c, s).error == Corrupted
    ensures Rebuild(e, c, s).Ok? ==> Rebuild(e, c, s).value.configuration == Some(c)
  {
    hide DecodeHistory, DecodeState, ToReal, ImportProvider, Builder.Import;
  }

  lemma NameIsStrategy(name: string, strategy: Strategy)
    ensures StrategyName(strategy) == name <==> StrategyNamed(name) == Some(strategy)
  {
  }

  // ---- through text ------------------------------------------------------------------------

  lemma BuildProviderReloaded(c: BrickConfiguration)
    ensures BuildProvider(Reloaded(c)) == BuildProvider(c)
  {
    hide RereadEntries, StoredEntries;
    ReloadedResolves(c);
  }

  lemma ReopenedIsStorable(e: Engine)
    requires Storable(e)
    ensures Storable(Reopened(e))
  {
    hide BuildProvider, Reloaded;
    BuildProviderReloaded(e.configuration.value);
    ReloadedResolves(e.configuration.value);
  }

  /** Restoring what was written gives back the engine with its configuration as the text reads
      back, exactly when the strategy name is registered. */
  lemma RestoreReadBack(e: Engine)
    requires Storable(e) && Carriable(Dict(e.configuration.value.metadata))
    ensures Restore(Snapshot(Reopened(e)).value, e.bus)
            == if StrategyNamed(e.configuration.value.ResolvedStrategy()).Some? then Ok(Reopened(e)) else Err(Incompatible)
  {
    hide Restore, Snapshot, Storable, Reloaded;
    StorableIsConfigured(e);
    ReopenedIsStorable(e);
    RestoreSnapshot(Reopened(e));
    ReloadedIsSafe(e.configuration.value);
    ReloadedResolves(e.configuration.value);
  }
}
