/** Resume determinism: a session cut in two by a stored snapshot is the uninterrupted session. */
module RenkoResume {
  import opened Common
  import opened PlainValue
  import opened RenkoModels
  import opened RenkoCodec
  import opened RenkoProviders
  import opened RenkoEngine
  import opened RenkoHistory
  import opened RenkoSnapshot

  // ---- every session can be stored --------------------------------------------------

  /** The part of an engine the bricks grow in. */
  ghost predicate SafeMetadata(e: Engine) {
    && (e.state.Some? ==> JsonSafe(Dict(e.state.value.metadata)))
    && forall i | 0 <= i < |e.history| :: JsonSafe(Dict(e.history[i].metadata))
  }

  lemma SingleEntryIsSafe(key: Key, v: Value)
    requires IsText(key) && JsonSafe(v)
    ensures JsonSafe(Dict(map[key := v]))
  {
  }

  lemma BuiltMetadataIsSafe(b: Builder, m: Move, c: BrickConfiguration)
    ensures JsonSafe(Dict(Build(b, m, c).1.metadata))
    ensures Build(b, m, c).0.Name() == b.Name()
    ensures JsonSafe(Dict(TraditionalBrick(m, c).metadata))
  {
  }

  lemma StateAfterIsSafe(b: Brick, size: real)
    ensures JsonSafe(Dict(StateAfter(b, size).metadata))
  {
  }

  lemma {:induction false} AddBricksStorable(e: Engine, moves: seq<Move>, size: real)
    requires e.configuration.Some? && e.state.Some? && SafeMetadata(e)
    ensures SafeMetadata(AddBricks(e, moves, size)) && AddBricks(e, moves, size).builder.Name() == e.builder.Name()
  {
    hide Build, StateAfter;
    if moves != [] {
      var n := |moves| - 1;
      AddBricksStorable(e, moves[..n], size);
      var before := AddBricks(e, moves[..n], size);
      BuiltMetadataIsSafe(before.builder, moves[n], e.configuration.value);
      StateAfterIsSafe(Build(before.builder, moves[n], e.configuration.value).1, size);
    }
  }

  lemma {:induction false} ApplyMovesStorable(e: Engine, moves: seq<Move>, size: real)
    requires e.configuration.Some? && e.state.Some? && SafeMetadata(e)
    ensures SafeMetadata(ApplyMoves(e, moves, size)) && ApplyMoves(e, moves, size).builder.Name() == e.builder.Name()
  {
    hide TraditionalBrick, StateAfter, AddBricks;
    AddBricksStorable(e, moves, size);
    forall m: Move ensures JsonSafe(Dict(TraditionalBrick(m, e.configuration.value).metadata)) {
      BuiltMetadataIsSafe(e.builder, m, e.configuration.value);
    }
    if moves != [] {
      var r := ApplyMoves(e, moves, size);
      StateAfterIsSafe(r.history[|r.history| - 1], size);
    }
  }

  lemma FollowStorable(e: Engine, price: real, timestamp: int, size: real)
    requires e.configuration.Some? && e.state.Some? && SafeMetadata(e)
    ensures var r := Follow(e, PlanBricks(e.state.value, e.history == [], price, timestamp, size), size).0;
            SafeMetadata(r) && r.builder.Name() == e.builder.Name()
  {
    hide ApplyMoves, Ladder;
    var plan := PlanBricks(e.state.value, e.history == [], price, timestamp, size);
    match plan
    case Climb(moves) => ApplyMovesStorable(e, moves, size);
    case _ =>
  }

  lemma ChartStorable(e: Engine, c: Candle)
    requires Wired(e) && e.state.Some? && SafeMetadata(e)
    ensures SafeMetadata(Chart(e, c).0) && Chart(e, c).0.builder.Name() == e.builder.Name()
  {
    hide PlanBricks, Follow;
    if e.provider.value.Ready() {
      var size := e.provider.value.Size().value;
      var told := PublishSize(e, size);
      var price := SelectPrice(c, e.configuration.value.priceSource);
      if price.Some? && told.pendingOpen.None? {
        SingleEntryIsSafe(OfMetadata(AnchorPrice), Num(price.value));
      } else if price.Some? {
        FollowStorable(told, price.value, c.timestamp, size);
      }
    }
  }

  lemma ProcessStorable(e: Engine, x: Input)
    requires Storable(e)
    ensures Storable(Process(e, x).0)
  {
    hide Chart, BuildProvider;
    ProcessKeepsWired(e, x);
    SingleEntryIsSafe(OfMetadata(StartedAt), Str(Iso(x.now)));
    var started := EnsureStarted(e, x.now);
    var fed := started.provider.value.Update(x.candle);
    if fed.Some? {
      UpdateKeepsParameters(started.provider.value, x.candle);
      ChartStorable(started.(provider := fed), x.candle);
    }
  }

  lemma {:induction false} RunStorable(e: Engine, xs: seq<Input>)
    requires Storable(e)
    ensures Storable(Run(e, xs))
  {
    if xs != [] {
      RunStorable(e, xs[..|xs| - 1]);
      ProcessStorable(Run(e, xs[..|xs| - 1]), xs[|xs| - 1]);
    }
  }

  lemma FreshIsStorable(c: BrickConfiguration, bus: bool)
    requires Fresh(c, bus).Some?
    ensures Storable(Fresh(c, bus).value)
  {
    BuildProviderFacts(c);
    BuilderNamedAgrees(c.ResolvedBuilder());
  }

  lemma BuilderNamedAgrees(name: Option<string>)
    requires BuilderNamed(name).Some?
    ensures name == Some(BuilderNamed(name).value.Name())
  {
  }

  // ---- a revived engine tracks the one it came from ----------------------------------------

  /** The same configuration but for the free-form metadata, which storage may have rewritten. */
  predicate SameButMetadata(c: BrickConfiguration, d: BrickConfiguration) {
    d == c.(metadata := d.metadata)
  }

  /** b is a as storage gives it back, and a has published `past` more than b. */
  predicate Tracks(a: Engine, b: Engine, past: seq<Event>) {
    && a.configuration.Some? && b.configuration.Some?
    && SameButMetadata(a.configuration.value, b.configuration.value)
    && b == a.(configuration := b.configuration, events := b.events)
    && a.events == past + b.events
  }

  lemma BuildAlike(builder: Builder, m: Move, c: BrickConfiguration, d: BrickConfiguration)
    requires SameButMetadata(c, d)
    ensures Build(builder, m, d) == Build(builder, m, c)
    ensures TraditionalBrick(m, d) == TraditionalBrick(m, c)
    ensures d.ResolvedProvider() == c.ResolvedProvider()
  {
  }

  lemma AddBrickTracks(a: Engine, b: Engine, past: seq<Event>, m: Move, size: real)
    requires Tracks(a, b, past) && a.state.Some?
    ensures Tracks(AddBrick(a, m, size), AddBrick(b, m, size), past)
  {
    hide Build;
    BuildAlike(a.builder, m, a.configuration.value, b.configuration.value);
  }

  lemma {:induction false} AddBricksTracks(a: Engine, b: Engine, past: seq<Event>, moves: seq<Move>, size: real)
    requires Tracks(a, b, past) && a.state.Some?
    ensures Tracks(AddBricks(a, moves, size), AddBricks(b, moves, size), past)
  {
    hide AddBrick;
    if moves != [] {
      var n := |moves| - 1;
      AddBricksTracks(a, b, past, moves[..n], size);
      AddBrickTracks(AddBricks(a, moves[..n], size), AddBricks(b, moves[..n], size), past, moves[n], size);
    }
  }

  lemma {:induction false} ApplyMovesTracks(a: Engine, b: Engine, past: seq<Event>, moves: seq<Move>, size: real)
    requires Tracks(a, b, past) && a.state.Some?
    ensures Tracks(ApplyMoves(a, moves, size), ApplyMoves(b, moves, size), past)
  {
    hide TraditionalBrick, StateAfter;
    AddBricksTracks(a, b, past, moves, size);
    forall m: Move
      ensures TraditionalBrick(m, b.configuration.value) == TraditionalBrick(m, a.configuration.value)
    {
      BuildAlike(a.builder, m, a.configuration.value, b.configuration.value);
    }
    assert seq(|moves|, i requires 0 <= i < |moves| => TraditionalBrick(moves[i], a.configuration.value)) ==
           seq(|moves|, i requires 0 <= i < |moves| => TraditionalBrick(moves[i], b.configuration.value));
  }

  lemma FollowTracks(a: Engine, b: Engine, past: seq<Event>, plan: Plan, size: real)
    requires Tracks(a, b, past) && a.state.Some?
    ensures Tracks(Follow(a, plan, size).0, Follow(b, plan, size).0, past)
    ensures Follow(a, plan, size).1 == Follow(b, plan, size).1
  {
    hide ApplyMoves;
    match plan
    case Climb(moves) => ApplyMovesTracks(a, b, past, moves, size);
    case _ =>
  }

  lemma PublishSizeTracks(a: Engine, b: Engine, past: seq<Event>, size: real)
    requires Tracks(a, b, past)
    ensures Tracks(PublishSize(a, size), PublishSize(b, size), past)
  {
  }

  lemma ChartTracks(a: Engine, b: Engine, past: seq<Event>, c: Candle)
    requires Tracks(a, b, past) && Wired(a) && a.state.Some?
    ensures Tracks(Chart(a, c).0, Chart(b, c).0, past) && Chart(a, c).1 == Chart(b, c).1
  {
    hide PlanBricks, Follow, PublishSize;
    if a.provider.value.Ready() {
      var size := a.provider.value.Size().value;
      PublishSizeTracks(a, b, past, size);
      PublishSizeFrame(a, size);
      PublishSizeFrame(b, size);
      var told := PublishSize(a, size);
      var price := SelectPrice(c, a.configuration.value.priceSource);
      if price.Some? && told.pendingOpen.Some? {
        FollowTracks(told, PublishSize(b, size), past,
                     PlanBricks(told.state.value, told.history == [], price.value, c.timestamp, size), size);
      }
    }
  }

  lemma PublishSizeFrame(e: Engine, size: real)
    requires e.configuration.Some?
    ensures var r := PublishSize(e, size);
            r == e.(events := r.events, publishedSize := r.publishedSize)
  {
  }

  lemma ProcessTracks(a: Engine, b: Engine, past: seq<Event>, x: Input)
    requires Tracks(a, b, past) && Wired(a)
    ensures Tracks(Process(a, x).0, Process(b, x).0, past) && Process(a, x).1 == Process(b, x).1
  {
    hide Chart;
    var s, t := EnsureStarted(a, x.now), EnsureStarted(b, x.now);
    assert Tracks(s, t, past);
    var fed := s.provider.value.Update(x.candle);
    if fed.Some? {
      UpdateKeepsParameters(s.provider.value, x.candle);
      ChartTracks(s.(provider := fed), t.(provider := fed), past, x.candle);
    }
  }

  lemma {:induction false} RunTracks(a: Engine, b: Engine, past: seq<Event>, xs: seq<Input>)
    requires Tracks(a, b, past) && Wired(a)
    ensures Tracks(Run(a, xs), Run(b, xs), past)
  {
    hide Process;
    if xs != [] {
      RunTracks(a, b, past, xs[..|xs| - 1]);
      ProcessTracks(Run(a, xs[..|xs| - 1]), Run(b, xs[..|xs| - 1]), past, xs[|xs| - 1]);
    }
  }

  // ---- the theorem ----------------------------------------------------------------------------

  /** What an operator saves: the engine's snapshot as text. */
  function Save(e: Engine): Option<JsonText> {
    var s := Snapshot(e);
    if s.None? then None else Serialize(s.value)
  }

  /** The configured metadata holds nothing foreign to JSON and no keys that cannot be sorted: what a
      caller can check beforehand. */
  predicate Savable(c: BrickConfiguration) {
    Carriable(Dict(c.metadata))
  }

  /** Saving succeeds exactly when the configured metadata can be carried; restoring what was saved
      succeeds exactly when the strategy the configuration names is registered. */
  lemma SavedSessionsRestore(e: Engine)
    requires Storable(e)
    ensures Save(e).Some? <==> Savable(e.configuration.value)
    ensures Save(e).Some? ==>
              RestoreText(Save(e).value, e.bus) ==
              if StrategyNamed(e.configuration.value.ResolvedStrategy()).Some? then Ok(Reopened(e)) else Err(Incompatible)
    ensures Save(e).Some? ==> Deserialize(Save(e).value) == Ok(Snapshot(Reopened(e)).value)
  {
    hide Restore, ToDict, Reopened, FromDict, Writable, Carriable, ReadBack;
    SnapshotIsWritableIff(e);
    SerializeRoundTrip(Snapshot(e).value);
    if Carriable(Dict(e.configuration.value.metadata)) {
      RestoreReadBack(e);
    }
  }

  /** For every configuration, with or without a bus, and every split of a session: a save after
      the first part succeeds exactly when the configured metadata can be carried by JSON. Restoring
      it into fresh components and processing the second part then gives the history, state, builder,
      provider and anchor of the uninterrupted session, and what it publishes is exactly what the
      uninterrupted session publishes from then on. The restored engine's snapshot is what was stored. */
  lemma {:induction false} ResumeDeterminism(c: BrickConfiguration, bus: bool, first: seq<Input>, rest: seq<Input>)
    requires Fresh(c, bus).Some? && StrategyNamed(c.ResolvedStrategy()).Some?
    ensures var whole := Run(Fresh(c, bus).value, first + rest);
            var cut := Run(Fresh(c, bus).value, first);
            && (Save(cut).Some? <==> Savable(c))
            && (Savable(c) ==>
                  && RestoreText(Save(cut).value, bus).Ok?
                  && var revived := RestoreText(Save(cut).value, bus).value;
                     && Wired(revived)
                     && Tracks(whole, Run(revived, rest), cut.events)
                     && Deserialize(Save(cut).value) == Ok(Snapshot(revived).value)
                     && (Snapshot(revived) == Snapshot(cut) <==> TextKeys(Dict(c.metadata))))
  {
    hide Save, RestoreText, Snapshot, Process, Carriable, TextKeys, Reloaded;
    var e := Fresh(c, bus).value;
    FreshIsStorable(c, bus);
    RunStorable(e, first);
    var cut := Run(e, first);
    RunKeepsConfiguration(e, first);
    SavedSessionsRestore(cut);
    if Savable(c) {
      RunSplits(e, first, rest);
      assert cut.events + [] == cut.events;
      ReloadedIsSameButMetadata(c);
      RunTracks(cut, Reopened(cut), cut.events, rest);
      SnapshotsAgreeIff(cut);
      ReopenedIsWired(cut);
    }
  }

  lemma ReopenedIsWired(e: Engine)
    requires Storable(e)
    ensures Wired(Reopened(e))
  {
    ReopenedIsStorable(e);
  }

  lemma ReloadedIsSameButMetadata(c: BrickConfiguration)
    ensures SameButMetadata(c, Reloaded(c))
  {
  }

  lemma {:induction false} RunKeepsConfiguration(e: Engine, xs: seq<Input>)
    requires Wired(e)
    ensures Run(e, xs).configuration == e.configuration && Run(e, xs).bus == e.bus
  {
    hide Process;
    if xs != [] {
      RunKeepsConfiguration(e, xs[..|xs| - 1]);
      ProcessKeepsWired(Run(e, xs[..|xs| - 1]), xs[|xs| - 1]);
    }
  }

  /** The reopened engine's snapshot is the old one exactly when the metadata's keys were texts:
      other keys come back as their texts. */
  lemma SnapshotsAgreeIff(e: Engine)
    requires Storable(e) && Savable(e.configuration.value)
    ensures Snapshot(Reopened(e)) == Snapshot(e) <==> TextKeys(Dict(e.configuration.value.metadata))
  {
    hide Storable, Carriable, TextKeys, Reloaded, Stored;
    StorableIsConfigured(e);
    var c := e.configuration.value;
    ReopenedSnapshot(e);
    ReloadedIsStoredIff(c);
    StoredIsStable(c);
    ReloadedIsSafe(c);
    MetadataIsStored(c);
    MetadataIsStored(Reloaded(c));
    StoredMetadata(c);
  }

  /** Two configurations encode alike only if their converted metadata agree. */
  lemma StoredMetadata(c: BrickConfiguration)
    requires Stored(Reloaded(c)) == Reloaded(c)
    ensures ConfigurationToDict(Reloaded(c)) == ConfigurationToDict(c) ==> Reloaded(c) == Stored(c)
  {
    var m := OfConfiguration(ConfigurationField.Metadata);
    MetadataIsStored(c);
    MetadataIsStored(Reloaded(c));
    assert Reloaded(c).metadata == StoredEntries(Reloaded(c).metadata);
  }

  /** The failing family: such an engine runs, and saves like any other, but nothing it saves can
      be restored. */
  lemma {:induction false} UnknownStrategyNeverRestores(c: BrickConfiguration, bus: bool, first: seq<Input>)
    requires Fresh(c, bus).Some? && StrategyNamed(c.ResolvedStrategy()).None?
    ensures var cut := Run(Fresh(c, bus).value, first);
            && (Save(cut).Some? <==> Savable(c))
            && (Savable(c) ==> RestoreText(Save(cut).value, bus) == Err(Incompatible))
    ensures c.ResolvedProvider() == "fixed" || c.ResolvedProvider() == "atr"
  {
    hide Save, RestoreText, Snapshot, Process, Carriable;
    var e := Fresh(c, bus).value;
    FreshIsStorable(c, bus);
    RunStorable(e, first);
    RunKeepsConfiguration(e, first);
    SavedSessionsRestore(Run(e, first));
    BuildProviderFacts(c);
  }

  /** It has members: a fixed-size configuration that names an unregistered price strategy. */
  lemma UnknownStrategyExists(c: BrickConfiguration)
    requires c.provider == Some("fixed") && c.brickSize > 0.0 && c.referenceStrategy == Some("vwap")
    requires c.builderType == Some("traditional")
    ensures Fresh(c, false).Some? && StrategyNamed(c.ResolvedStrategy()).None?
  {
  }

  /** The other failing family has members too: with a Decimal in its metadata a fixed-size session
      runs, but no point of it can be saved. */
  lemma {:induction false} DecimalIsNeverSaved(c: BrickConfiguration, bus: bool, xs: seq<Input>)
    requires c.provider == Some("fixed") && c.brickSize > 0.0 && c.builderType == Some("traditional")
    requires c.metadata == map[Other("x") := Opaque("Decimal", true)]
    ensures Fresh(c, bus).Some? && Wired(Fresh(c, bus).value)
    ensures Save(Run(Fresh(c, bus).value, xs)).None?
  {
    FixedRuns(c, bus);
    hide Save, Process, Fresh, Carriable, Storable, BuildProvider;
    DecimalIsForeign(c.metadata);
    FreshIsStorable(c, bus);
    RunStorable(Fresh(c, bus).value, xs);
    RunKeepsConfiguration(Fresh(c, bus).value, xs);
    SavedSessionsRestore(Run(Fresh(c, bus).value, xs));
  }

  lemma FixedRuns(c: BrickConfiguration, bus: bool)
    requires c.provider == Some("fixed") && c.brickSize > 0.0 && c.builderType == Some("traditional")
    ensures Fresh(c, bus).Some? && Wired(Fresh(c, bus).value) && Fresh(c, bus).value.configuration == Some(c)
  {
  }

  lemma DecimalIsForeign(m: map<Key, Value>)
    requires m == map[Other("x") := Opaque("Decimal", true)]
    ensures !Carriable(Dict(m))
  {
    assert Other("x") in m && !Carriable(m[Other("x")]);
  }

  /** Nor can one whose metadata has a number and a text as keys: they cannot be sorted. */
  lemma MixedKeysAreNeverSaved(c: BrickConfiguration)
    requires c.metadata.Keys == {Scalar("1"), Other("x")}
    ensures !Savable(c)
  {
    assert Scalar("1") in c.metadata && Other("x") in c.metadata && !Comparable(Scalar("1"), Other("x"));
  }

  /** A number as a metadata key is saved, and comes back as its text. */
  lemma NumberKeyBecomesText(c: BrickConfiguration)
    requires c.metadata == map[Scalar("1") := Flag(true)]
    ensures Savable(c) && Reloaded(c).metadata == map[Other("1") := Flag(true)]
  {
    var stored := StoredEntries(c.metadata);
    assert stored.Keys == {Scalar("1")} && stored[Scalar("1")] == Jsonify(Flag(true)) == Flag(true);
    assert Carriable(Flag(true)) && Reread(Flag(true)) == Flag(true);
    assert forall k | k in c.metadata :: k == Scalar("1") && c.metadata[k] == Flag(true);
    assert Kept(stored, Scalar("1"));
    var r := RereadEntries(Dict(stored));
    assert TextOf(Scalar("1")) == Other("1") && Other("1") in r && r[Other("1")] == Flag(true);
    assert forall k | k in r :: k == Other("1");
    assert r == map[Other("1") := Flag(true)];
  }
}
