/** Ticks into candles: the open buckets and what a tick or a closing does to them. */
module Aggregation {
  import opened Common
  import opened Calendar

  datatype Tick = Tick(symbol: string, exchange: string, timestamp: nat, price: real, size: Option<real>,
                       bid: Option<real>, ask: Option<real>, exchangeTime: Option<int>)

  /** What makes two ticks the same; the exchange's own time is not part of it. */
  datatype Signature = Signature(symbol: string, exchange: string, timestamp: nat, price: real, size: Option<real>,
                                 bid: Option<real>, ask: Option<real>)

  function SignatureOf(t: Tick): Signature {
    Signature(t.symbol, t.exchange, t.timestamp, t.price, t.size, t.bid, t.ask)
  }

  /** A trading session: its exchange and its times of day. */
  datatype Session = Session(exchange: string, opens: nat, closes: nat)

  predicate InSession(t: Tick, s: Option<Session>) {
    s.Some? ==> s.value.opens <= t.timestamp % DAY < s.value.closes
  }

  datatype Key = Key(symbol: string, exchange: string, start: nat)

  function KeyOf(tf: Timeframe, t: Tick): Key {
    Key(t.symbol, t.exchange, Align(tf, t.timestamp))
  }

  datatype Bucket = Bucket(key: Key, end: nat, open: real, high: real, low: real, close: real, volume: real,
                           trades: nat, last: nat, seen: set<Signature>, closed: bool)

  datatype Candle = Candle(key: Key, open: real, high: real, low: real, close: real, volume: real, trades: nat)

  // ---- the builder ------------------------------------------------------------------

  function Volume(t: Tick): real {
    t.size.GetOr(0.0)
  }

  function Create(tf: Timeframe, t: Tick): Bucket {
    var key := KeyOf(tf, t);
    Bucket(key, BucketEnd(tf, key.start), t.price, t.price, t.price, t.price, Volume(t), 1, t.timestamp,
           {SignatureOf(t)}, false)
  }

  function Update(b: Bucket, t: Tick): Bucket {
    if SignatureOf(t) in b.seen then b
    else
      b.(high := Max(b.high, t.price), low := Min(b.low, t.price),
         close := if t.timestamp > b.last then t.price else b.close,
         last := if t.timestamp > b.last then t.timestamp else b.last,
         volume := b.volume + Volume(t), trades := b.trades + 1, seen := b.seen + {SignatureOf(t)})
  }

  function Finalize(b: Bucket): Candle {
    Candle(b.key, b.open, b.high, b.low, b.close, b.volume, b.trades)
  }

  // ---- the aggregator ---------------------------------------------------------------------

  /** Why buckets close: their end has passed, or their exchange's session is over for the day. */
  datatype Reason = EndPassed(at: nat) | SessionOver(exchange: string, at: nat)

  predicate Ends(b: Bucket, r: Reason) {
    match r
    case EndPassed(at) => at >= b.end
    case SessionOver(exchange, at) => b.key.exchange == exchange && b.end <= at && b.key.start / DAY == at / DAY
  }

  function Kept(bs: seq<Bucket>, r: Reason): seq<Bucket> {
    if bs == [] then []
    else Kept(bs[..|bs| - 1], r) + if Ends(bs[|bs| - 1], r) then [] else [bs[|bs| - 1]]
  }

  function Shut(bs: seq<Bucket>, r: Reason): seq<Bucket> {
    if bs == [] then []
    else Shut(bs[..|bs| - 1], r) + if Ends(bs[|bs| - 1], r) then [bs[|bs| - 1].(closed := true)] else []
  }

  function Position(bs: seq<Bucket>, key: Key): (r: Option<nat>)
    ensures r.Some? ==> r.value < |bs| && bs[r.value].key == key
    ensures r.None? ==> forall i | 0 <= i < |bs| :: bs[i].key != key
  {
    if bs == [] then None
    else if bs[|bs| - 1].key == key then Some(|bs| - 1)
    else Position(bs[..|bs| - 1], key)
  }

  /** The open buckets after a tick, and the buckets the tick reports. */
  function Ingest(tf: Timeframe, bs: seq<Bucket>, t: Tick, s: Option<Session>): (seq<Bucket>, seq<Bucket>) {
    if !InSession(t, s) then (bs, [])
    else
      var (open, placed) := Place(tf, Kept(bs, EndPassed(t.timestamp)), t);
      (open, Shut(bs, EndPassed(t.timestamp)) + placed)
  }

  /** The tick opens its bucket, extends it, or has been seen before. */
  function Place(tf: Timeframe, open: seq<Bucket>, t: Tick): (seq<Bucket>, seq<Bucket>) {
    match Position(open, KeyOf(tf, t))
    case None => (open + [Create(tf, t)], [Create(tf, t)])
    case Some(i) =>
      if SignatureOf(t) in open[i].seen || open[i].closed then (open, [])
      else (open[i := Update(open[i], t)], [Update(open[i], t)])
  }

  // ---- the engine ----------------------------------------------------------------------------

  datatype Kind = CandleOpened | CandleUpdated | CandleClosed

  datatype Event = Event(kind: Kind, candle: Candle)

  function EventFor(b: Bucket): Event {
    Event(if b.closed then CandleClosed else if b.trades == 1 then CandleOpened else CandleUpdated, Finalize(b))
  }

  function EventsFor(bs: seq<Bucket>): seq<Event> {
    if bs == [] then [] else EventsFor(bs[..|bs| - 1]) + [EventFor(bs[|bs| - 1])]
  }

  function ClosedEvents(bs: seq<Bucket>): seq<Event> {
    if bs == [] then [] else ClosedEvents(bs[..|bs| - 1]) + [Event(CandleClosed, Finalize(bs[|bs| - 1]))]
  }

  datatype Engine = Engine(open: seq<Bucket>, published: seq<Event>)

  function CloseBy(e: Engine, r: Reason): Engine {
    Engine(Kept(e.open, r), e.published + ClosedEvents(Shut(e.open, r)))
  }

  function ProcessTick(tf: Timeframe, e: Engine, t: Tick, s: Option<Session>): Engine {
    var due := CloseBy(e, EndPassed(t.timestamp));
    var (open, reported) := Ingest(tf, due.open, t, s);
    Engine(open, due.published + EventsFor(reported))
  }

  datatype Op = Arrive(tick: Tick, session: Option<Session>) | CloseAt(at: nat) | CloseSession(over: Session, at: nat)

  function Step(tf: Timeframe, e: Engine, op: Op): Engine {
    match op
    case Arrive(t, s) => ProcessTick(tf, e, t, s)
    case CloseAt(at) => CloseBy(e, EndPassed(at))
    case CloseSession(s, at) => CloseBy(e, SessionOver(s.exchange, at))
  }

  const IDLE := Engine([], [])

  function Run(tf: Timeframe, ops: seq<Op>): Engine {
    if ops == [] then IDLE else Step(tf, Run(tf, ops[..|ops| - 1]), ops[|ops| - 1])
  }
}
