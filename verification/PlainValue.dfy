/**
  The dynamic values that cross the persistence boundary, and the conversion
  that turns them into JSON-compatible ones.
 */
module PlainValue {

  /** The texts the system writes. Formatted texts keep the data they are made
      from, so that formatting is injective. */
  datatype Text =
    | Literal(s: string)
    | Iso(timestamp: int)
    | BrickId(direction: string, createdAt: int, openTicks: int, closeTicks: int)
    | HybridId(sequence: int, base: Text)

  datatype ConfigurationField =
    | BrickType | BrickSize | PriceSource | Mode | AtrPeriod | AtrMultiplier | Provider | Builder
    | BuilderType | Percentage | ReferencePrice | ReferenceStrategy | MinimumSize | Rounding
    | MeanLookback | MedianLookback | HybridWeight | AiModel | AdaptiveWindow
    | AdaptiveThresholds | AdaptiveHysteresis | Metadata

  datatype BrickField =
    | Id | Direction | Open | Close | High | Low | Volume | CreatedAt | Metadata

  datatype StateField =
    | Direction | LastPrice | BrickSize | IsOpen | Metadata

  datatype MetaField =
    | BrickSize | PriceSource | BuilderType | HybridSequence | LastBrickId | AnchorPrice | StartedAt

  datatype PartField =
    | PrevClose | WarmupSum | Count | Atr | CurrentSize | Stat | Regime | Sub
    | Low | Medium | High | Sequence

  datatype EngineField =
    | SchemaVersion | EngineType | Configuration | BuilderState | BrickHistory | ProviderState
    | StrategyState | Metadata

  datatype RuntimeField =
    | BrickCount | EngineRuntime | State | PendingOpen | Boundary | PublishedSize

  /** Dictionary keys: the field names of each persisted dictionary, any other text, and keys that
      are no text: numbers, booleans and null, by their JSON text, and those JSON has no text for. */
  datatype Key =
    | OfConfiguration(configuration: ConfigurationField)
    | OfBrick(brick: BrickField)
    | OfState(state: StateField)
    | OfMetadata(meta: MetaField)
    | OfPart(part: PartField)
    | OfEngine(engine: EngineField)
    | OfRuntime(runtime: RuntimeField)
    | Other(name: string)
    | Scalar(text: string)
    | Foreign(name: string)

  datatype Value =
    | Null
    | Flag(flag: bool)
    | Int(n: int)
    | Num(x: real)
    | Str(text: Text)
    | Enum(member: Text)
    | Stamp(at: int)
    | List(items: seq<Value>)
    | Tuple(elements: seq<Value>)
    | Dict(entries: map<Key, Value>)
    | Opaque(name: string, truthy: bool)  // any other object: a Decimal, a set, ...

  predicate IsText(k: Key) {
    !k.Scalar? && !k.Foreign?
  }

  /** What JSON gives back as it is: texts, numbers, flags and null, lists, dictionaries with text
      keys, at any depth. */
  predicate JsonSafe(v: Value) {
    match v
    case Enum(_) => false
    case Stamp(_) => false
    case Tuple(_) => false
    case Opaque(_, _) => false
    case List(items) => forall i | 0 <= i < |items| :: JsonSafe(items[i])
    case Dict(entries) => forall k | k in entries :: IsText(k) && JsonSafe(entries[k])
    case _ => true
  }

  /** Enum members become their value, datetimes their ISO text, tuples lists; keys and every other
      object stay as they are. */
  function Jsonify(v: Value): Value {
    match v
    case Enum(member) => Str(member)
    case Stamp(at) => Str(Iso(at))
    case Dict(entries) => Dict(map k | k in entries :: Jsonify(entries[k]))
    case List(items) => List(seq(|items|, i requires 0 <= i < |items| => Jsonify(items[i])))
    case Tuple(items) => List(seq(|items|, i requires 0 <= i < |items| => Jsonify(items[i])))
    case _ => v
  }

  const NULL_KEY := Scalar("null")

  /** Writing sorts the keys of a dictionary, and Python orders texts among texts and numbers and
      booleans among themselves, and nothing else. */
  predicate Sortable(keys: set<Key>) {
    forall j, k | j in keys && k in keys :: Comparable(j, k)
  }

  predicate Comparable(j: Key, k: Key) {
    IsText(j) == IsText(k) && (j == NULL_KEY || k == NULL_KEY ==> j == k)
  }

  lemma TextsAreSortable(keys: set<Key>)
    requires forall k | k in keys :: IsText(k)
    ensures Sortable(keys)
  {
  }

  /** That is: only texts, or only numbers and booleans, or null alone. */
  lemma SortableIff(keys: set<Key>)
    ensures Sortable(keys) <==>
            || (forall k | k in keys :: IsText(k))
            || (forall k | k in keys :: !IsText(k) && k != Scalar("null"))
            || keys == {Scalar("null")}
  {
    if Sortable(keys) && Scalar("null") in keys {
      assert forall k | k in keys :: Comparable(k, Scalar("null"));
    } else if Sortable(keys) {
      assert forall j, k | j in keys && k in keys :: Comparable(j, k) ==> IsText(j) == IsText(k);
    }
  }

  /** Nothing in it is an object, or a key, that JSON has no form for, and no dictionary mixes keys
      that cannot be sorted. */
  predicate Carriable(v: Value) {
    match v
    case Opaque(_, _) => false
    case List(items) => forall i | 0 <= i < |items| :: Carriable(items[i])
    case Tuple(items) => forall i | 0 <= i < |items| :: Carriable(items[i])
    case Dict(entries) => Sortable(entries.Keys) && forall k | k in entries :: !k.Foreign? && Carriable(entries[k])
    case _ => true
  }

  /** Every dictionary key in it is a text. */
  predicate TextKeys(v: Value) {
    match v
    case List(items) => forall i | 0 <= i < |items| :: TextKeys(items[i])
    case Tuple(items) => forall i | 0 <= i < |items| :: TextKeys(items[i])
    case Dict(entries) => forall k | k in entries :: IsText(k) && TextKeys(entries[k])
    case _ => true
  }

  /** What json.dumps accepts: it raises on a datetime, on any other object, on a key it has no text
      for, and on keys it cannot sort. The enums here are texts and are written as such; tuples are
      written as lists. */
  predicate Writable(v: Value) {
    match v
    case Stamp(_) => false
    case Opaque(_, _) => false
    case List(items) => forall i | 0 <= i < |items| :: Writable(items[i])
    case Tuple(items) => forall i | 0 <= i < |items| :: Writable(items[i])
    case Dict(entries) => Sortable(entries.Keys) && forall k | k in entries :: !k.Foreign? && Writable(entries[k])
    case _ => true
  }

  function TextOf(k: Key): Key {
    match k
    case Scalar(text) => Other(text)
    case _ => k
  }

  /** Of a key and its text only the text is kept; a dictionary holding both is never written. */
  predicate Kept(entries: map<Key, Value>, k: Key) {
    k in entries && (k.Scalar? ==> Other(k.text) !in entries)
  }

  /** What the written text reads back as: keys are texts, tuples lists, enum members texts. */
  function Reread(v: Value): Value
    decreases v, 1
  {
    match v
    case Enum(member) => Str(member)
    case Dict(_) => Dict(RereadEntries(v))
    case List(items) => List(seq(|items|, i requires 0 <= i < |items| => Reread(items[i])))
    case Tuple(items) => List(seq(|items|, i requires 0 <= i < |items| => Reread(items[i])))
    case _ => v
  }

  function RereadEntries(v: Value): map<Key, Value>
    requires v.Dict?
    decreases v, 0
  {
    map k | k in v.entries && Kept(v.entries, k) :: TextOf(k) := Reread(v.entries[k])
  }

  /** What the conversion produces can be written exactly when nothing in the value was foreign to
      JSON, and comes back as it is exactly when in addition every key was a text. */
  lemma {:induction false} JsonifyIsSafe(v: Value)
    ensures Writable(Jsonify(v)) <==> Carriable(v)
    ensures JsonSafe(Jsonify(v)) <==> Carriable(v) && TextKeys(v)
  {
    match v
    case Dict(entries) =>
      var image := map k | k in entries :: Jsonify(entries[k]);
      forall k | k in entries
        ensures Writable(image[k]) <==> Carriable(entries[k])
        ensures JsonSafe(image[k]) <==> Carriable(entries[k]) && TextKeys(entries[k])
      {
        JsonifyIsSafe(entries[k]);
      }
      DictIsSafe(entries, image);
    case List(items) => ListIsSafe(items);
    case Tuple(items) => ListIsSafe(items);
    case _ =>
  }

  lemma DictIsSafe(entries: map<Key, Value>, image: map<Key, Value>)
    requires image.Keys == entries.Keys
    requires forall k | k in entries :: Writable(image[k]) <==> Carriable(entries[k])
    requires forall k | k in entries :: JsonSafe(image[k]) <==> Carriable(entries[k]) && TextKeys(entries[k])
    ensures Writable(Dict(image)) <==> Carriable(Dict(entries))
    ensures JsonSafe(Dict(image)) <==> Carriable(Dict(entries)) && TextKeys(Dict(entries))
  {
    hide Comparable, Sortable;
    assert forall k :: k in image <==> k in entries;
    if forall k | k in entries :: IsText(k) {
      TextsAreSortable(entries.Keys);
    }
  }

  lemma {:induction false} ListIsSafe(items: seq<Value>)
    ensures var image := List(seq(|items|, i requires 0 <= i < |items| => Jsonify(items[i])));
            && (Writable(image) <==> Carriable(List(items)))
            && (JsonSafe(image) <==> Carriable(List(items)) && TextKeys(List(items)))
  {
    forall i | 0 <= i < |items|
      ensures Writable(Jsonify(items[i])) <==> Carriable(items[i])
      ensures JsonSafe(Jsonify(items[i])) <==> Carriable(items[i]) && TextKeys(items[i])
    {
      JsonifyIsSafe(items[i]);
    }
    var image := seq(|items|, i requires 0 <= i < |items| => Jsonify(items[i]));
    assert forall i | 0 <= i < |items| :: image[i] == Jsonify(items[i]);
  }

  /** No enum member, datetime or tuple in it, at any depth. */
  predicate Converted(v: Value) {
    match v
    case Enum(_) => false
    case Stamp(_) => false
    case Tuple(_) => false
    case List(items) => forall i | 0 <= i < |items| :: Converted(items[i])
    case Dict(entries) => forall k | k in entries :: Converted(entries[k])
    case _ => true
  }

  /** The conversion changes nothing exactly when nothing in the value asks for it; converting
      twice is converting once. */
  lemma {:induction false} JsonifyFixesConverted(v: Value)
    ensures Jsonify(v) == v <==> Converted(v)
    ensures Converted(Jsonify(v))
  {
    match v
    case Dict(entries) =>
      forall k | k in entries
        ensures Jsonify(entries[k]) == entries[k] <==> Converted(entries[k])
        ensures Converted(Jsonify(entries[k]))
      {
        JsonifyFixesConverted(entries[k]);
      }
      var image := map k | k in entries :: Jsonify(entries[k]);
      assert image == entries <==> forall k | k in entries :: image[k] == entries[k];
    case List(items) =>
      forall i | 0 <= i < |items|
        ensures Jsonify(items[i]) == items[i] <==> Converted(items[i])
        ensures Converted(Jsonify(items[i]))
      {
        JsonifyFixesConverted(items[i]);
      }
      assert Jsonify(v).items == items <==> forall i | 0 <= i < |items| :: Jsonify(v).items[i] == items[i];
    case Tuple(items) =>
      forall i | 0 <= i < |items| ensures Converted(Jsonify(items[i])) {
        JsonifyFixesConverted(items[i]);
      }
    case _ =>
  }

  /** A JSON-compatible value is converted, written and read back as it is. */
  lemma {:induction false} SafeStaysAsItIs(v: Value)
    requires JsonSafe(v)
    ensures Jsonify(v) == v && Writable(v) && Reread(v) == v && Carriable(v) && TextKeys(v)
  {
    SafeIsConverted(v);
    JsonifyFixesConverted(v);
    JsonifyIsSafe(v);
    SafeRereads(v);
  }

  lemma {:induction false} SafeIsConverted(v: Value)
    requires JsonSafe(v)
    ensures Converted(v)
  {
    match v
    case Dict(entries) =>
      forall k | k in entries ensures Converted(entries[k]) {
        SafeIsConverted(entries[k]);
      }
    case List(items) =>
      forall i | 0 <= i < |items| ensures Converted(items[i]) {
        SafeIsConverted(items[i]);
      }
    case _ =>
  }

  lemma {:induction false} SafeRereads(v: Value)
    requires JsonSafe(v)
    ensures Reread(v) == v
  {
    match v
    case Dict(entries) =>
      forall k | k in entries ensures TextOf(k) == k && Kept(entries, k) && Reread(entries[k]) == entries[k] {
        SafeRereads(entries[k]);
      }
      hide Reread, JsonSafe, Kept, TextOf;
      assert RereadEntries(v) == entries;
      RereadOfDict(v);
    case List(items) =>
      forall i | 0 <= i < |items| ensures Reread(items[i]) == items[i] {
        SafeRereads(items[i]);
      }
      assert Reread(v).items == items;
    case _ =>
  }

  lemma RereadOfDict(v: Value)
    requires v.Dict?
    ensures Reread(v) == Dict(RereadEntries(v))
  {
  }

  /** Whatever can be written reads back as a JSON-compatible value. */
  lemma {:induction false} RereadIsSafe(v: Value)
    requires Writable(v)
    ensures JsonSafe(Reread(v))
  {
    match v
    case Dict(entries) =>
      forall k | k in entries ensures !k.Foreign? && JsonSafe(Reread(entries[k])) {
        RereadIsSafe(entries[k]);
      }
      RereadOfDict(v);
      RereadEntriesAreSafe(v);
    case List(items) => RereadListIsSafe(items);
    case Tuple(items) => RereadListIsSafe(items);
    case _ =>
  }

  lemma RereadEntriesAreSafe(v: Value)
    requires v.Dict? && forall k | k in v.entries :: !k.Foreign? && JsonSafe(Reread(v.entries[k]))
    ensures JsonSafe(Dict(RereadEntries(v)))
  {
    hide Reread;
    var read := RereadEntries(v);
    forall j | j in read ensures IsText(j) && JsonSafe(read[j]) {
      var k :| k in v.entries && Kept(v.entries, k) && j == TextOf(k) && read[j] == Reread(v.entries[k]);
    }
  }

  lemma {:induction false} RereadListIsSafe(items: seq<Value>)
    requires forall i | 0 <= i < |items| :: Writable(items[i])
    ensures JsonSafe(List(seq(|items|, i requires 0 <= i < |items| => Reread(items[i]))))
  {
    forall i | 0 <= i < |items| ensures JsonSafe(Reread(items[i])) {
      RereadIsSafe(items[i]);
    }
    var image := seq(|items|, i requires 0 <= i < |items| => Reread(items[i]));
    assert forall i | 0 <= i < |items| :: image[i] == Reread(items[i]);
  }

  /** When all entries but one are JSON-compatible under text keys, that one decides. */
  lemma OneEntryDecides(d: map<Key, Value>, m: Key)
    requires m in d && IsText(m)
    requires forall k | k in d && k != m :: IsText(k) && JsonSafe(d[k]) && Writable(d[k])
    ensures Writable(Dict(d)) <==> Writable(d[m])
    ensures JsonSafe(Dict(d)) <==> JsonSafe(d[m])
  {
    TextsAreSortable(d.Keys);
  }

  lemma RereadsTo(d: map<Key, Value>, r: map<Key, Value>)
    requires d.Keys == r.Keys && forall k | k in d :: IsText(k) && Reread(d[k]) == r[k]
    ensures RereadEntries(Dict(d)) == r
  {
    hide Reread;
    assert forall k | k in d :: TextOf(k) == k && Kept(d, k);
  }
}
