/** Whole runs of the aggregator, in whatever order things happen. */
module AggregationRuns {
  import opened Common
  import opened Calendar
  import opened Aggregation
  import opened AggregationFacts

  // ---- what each bucket goes through -------------------------------------------------------

  /** An in-session tick of the bucket. */
  predicate Hits(tf: Timeframe, op: Op, k: Key) {
    op.Arrive? && InSession(op.tick, op.session) && KeyOf(tf, op.tick) == k
  }

  /** That is: the tick names the bucket's symbol and exchange, the bucket is the one its timestamp
      falls in, and where there is a session its time since midnight lies in it. */
  lemma HitsIff(tf: Timeframe, op: Op, k: Key)
    ensures Hits(tf, op, k) <==>
            && op.Arrive?
            && op.tick.symbol == k.symbol && op.tick.exchange == k.exchange && Align(tf, op.tick.timestamp) == k.start
            && (op.session.Some? ==>
                  op.session.value.opens <= op.tick.timestamp - Align(OneDay, op.tick.timestamp) < op.session.value.closes)
  {
    hide Align;
    if op.Arrive? {
      AlignIsFloor(OneDay, op.tick.timestamp);
    }
  }

  /** What every operation closes first. */
  function ReasonOf(op: Op): Reason {
    match op
    case Arrive(t, _) => EndPassed(t.timestamp)
    case CloseAt(at) => EndPassed(at)
    case CloseSession(s, at) => SessionOver(s.exchange, at)
  }

  /** The operation closes the bucket if it is open: a condition on the operation's time and the
      bucket's start and end. */
  predicate Closes(tf: Timeframe, r: Reason, k: Key) {
    match r
    case EndPassed(at) => at >= BucketEnd(tf, k.start)
    case SessionOver(exchange, at) => k.exchange == exchange && BucketEnd(tf, k.start) <= at && k.start / DAY == at / DAY
  }

  function Left(tf: Timeframe, ts: seq<Tick>, r: Reason, k: Key): seq<Tick> {
    if Closes(tf, r, k) then [] else ts
  }

  function Extended(tf: Timeframe, ts: seq<Tick>, op: Op, k: Key): seq<Tick> {
    if Hits(tf, op, k) && !HasSignature(ts, SignatureOf(op.tick)) then ts + [op.tick] else ts
  }

  /** The distinct ticks of the bucket since it was last closed, in order of arrival. */
  function Current(tf: Timeframe, ops: seq<Op>, k: Key): seq<Tick> {
    if ops == [] then []
    else
      var op := ops[|ops| - 1];
      Extended(tf, Left(tf, Current(tf, ops[..|ops| - 1], k), ReasonOf(op), k), op, k)
  }

  /** How often the bucket has gone from closed to open. */
  function Openings(tf: Timeframe, ops: seq<Op>, k: Key): nat {
    if ops == [] then 0
    else Openings(tf, ops[..|ops| - 1], k)
         + if Hits(tf, ops[|ops| - 1], k) && Current(tf, ops[..|ops| - 1], k) == [] then 1 else 0
  }

  /** How often a further distinct tick has reached it while open. */
  function Extensions(tf: Timeframe, ops: seq<Op>, k: Key): nat {
    if ops == [] then 0
    else
      var before := Current(tf, ops[..|ops| - 1], k);
      Extensions(tf, ops[..|ops| - 1], k)
      + if Hits(tf, ops[|ops| - 1], k) && before != [] && !HasSignature(before, SignatureOf(ops[|ops| - 1].tick)) then 1 else 0
  }

  /** A tick never closes its own bucket. */
  lemma HitsSpare(tf: Timeframe, op: Op, k: Key)
    requires Hits(tf, op, k)
    ensures !Closes(tf, ReasonOf(op), k)
  {
    hide Align, BucketEnd;
    AlignContains(tf, op.tick.timestamp);
  }

  lemma HitsTell(tf: Timeframe, op: Op, k: Key)
    requires Hits(tf, op, k)
    ensures op.Arrive? && KeyOf(tf, op.tick) == k
  {
  }

  lemma CurrentStep(tf: Timeframe, ops: seq<Op>, op: Op, k: Key)
    ensures Current(tf, ops + [op], k) == Extended(tf, Left(tf, Current(tf, ops, k), ReasonOf(op), k), op, k)
    ensures Openings(tf, ops + [op], k)
            == Openings(tf, ops, k) + if Hits(tf, op, k) && Current(tf, ops, k) == [] then 1 else 0
    ensures Extensions(tf, ops + [op], k)
            == Extensions(tf, ops, k)
               + if Hits(tf, op, k) && Current(tf, ops, k) != [] && !HasSignature(Current(tf, ops, k), SignatureOf(op.tick)) then 1 else 0
  {
    hide Hits, Extended, Left, HasSignature;
    assert (ops + [op])[..|ops|] == ops;
  }

  lemma {:induction false} CurrentFacts(tf: Timeframe, ops: seq<Op>, k: Key)
    ensures AllDistinct(Current(tf, ops, k))
    ensures forall i | 0 <= i < |Current(tf, ops, k)| :: KeyOf(tf, Current(tf, ops, k)[i]) == k
  {
    hide KeyOf, Closes;
    if ops != [] {
      CurrentFacts(tf, ops[..|ops| - 1], k);
    } else {
      assert Current(tf, ops, k) == [];
    }
  }

  lemma BuildEnds(tf: Timeframe, ts: seq<Tick>, k: Key)
    requires ts != [] && KeyOf(tf, ts[0]) == k
    ensures var b := Build(tf, ts); b.key == k && b.end == BucketEnd(tf, k.start) && !b.closed
    ensures forall r :: Ends(Build(tf, ts), r) <==> Closes(tf, r, k)
  {
    hide KeyOf, BucketEnd, Build;
    BuildKey(tf, ts);
  }

  // ---- the invariant of every run -------------------------------------------------------------

  /** What the engine has done for one bucket whose ticks since the last close are `ts`: opened it
      every time a tick found it closed, updated it for every further distinct one, and closed every
      opening but the one that is open now. */
  ghost predicate Tally(e: Engine, k: Key, ts: seq<Tick>, openings: nat, extensions: nat) {
    && Holds(e.open, k) == (if ts != [] then 1 else 0)
    && Count(e.published, CandleClosed, k) + Holds(e.open, k) == openings
    && Count(e.published, CandleOpened, k) == openings
    && Count(e.published, CandleUpdated, k) == extensions
  }

  ghost predicate OpenRight(tf: Timeframe, b: Bucket, ts: seq<Tick>) {
    ts != [] && b == Build(tf, ts)
  }

  /** The i-th operation closed the bucket with this candle. */
  ghost predicate ClosedBy(tf: Timeframe, ops: seq<Op>, c: Candle, i: int) {
    && 0 <= i < |ops| && Closes(tf, ReasonOf(ops[i]), c.key)
    && Current(tf, ops[..i], c.key) != [] && c == Finalize(Build(tf, Current(tf, ops[..i], c.key)))
  }

  ghost predicate ClosedRight(tf: Timeframe, ops: seq<Op>, c: Candle) {
    exists i :: ClosedBy(tf, ops, c, i)
  }

  ghost predicate Sound(tf: Timeframe, ops: seq<Op>, e: Engine) {
    && (forall k :: Tally(e, k, Current(tf, ops, k), Openings(tf, ops, k), Extensions(tf, ops, k)))
    && (forall b | b in e.open :: OpenRight(tf, b, Current(tf, ops, b.key)))
    && (forall p | p in e.published && p.kind.CandleClosed? :: ClosedRight(tf, ops, p.candle))
  }

  /** Halfway through an operation: what it closes is closed, its tick has not been looked at. */
  ghost predicate Halfway(tf: Timeframe, ops: seq<Op>, op: Op, e: Engine) {
    && (forall k :: Tally(e, k, Left(tf, Current(tf, ops, k), ReasonOf(op), k), Openings(tf, ops, k), Extensions(tf, ops, k)))
    && (forall b | b in e.open :: OpenRight(tf, b, Left(tf, Current(tf, ops, b.key), ReasonOf(op), b.key)))
    && (forall p | p in e.published && p.kind.CandleClosed? :: ClosedRight(tf, ops + [op], p.candle))
  }

  lemma ClosedStays(tf: Timeframe, ops: seq<Op>, op: Op, c: Candle)
    requires ClosedRight(tf, ops, c)
    ensures ClosedRight(tf, ops + [op], c)
  {
    hide Current, Closes, Build;
    var i :| ClosedBy(tf, ops, c, i);
    assert (ops + [op])[..i] == ops[..i];
    assert ClosedBy(tf, ops + [op], c, i);
  }

  lemma ClosingTallies(tf: Timeframe, e: Engine, r: Reason, k: Key, ts: seq<Tick>, openings: nat, extensions: nat)
    requires Tally(e, k, ts, openings, extensions)
    requires forall b | b in e.open && b.key == k :: Ends(b, r) <==> Closes(tf, r, k)
    ensures Tally(CloseBy(e, r), k, Left(tf, ts, r, k), openings, extensions)
  {
    hide Kept, Shut, Count, Holds, ClosedEvents, Ends, Closes;
    var more := ClosedEvents(Shut(e.open, r));
    ClosingCounts(e.open, r, k);
    CountOfAppend(e.published, more, CandleClosed, k);
    CountOfAppend(e.published, more, CandleOpened, k);
    CountOfAppend(e.published, more, CandleUpdated, k);
    ClosingContents(e.open, r);
    HoldsIsMembership(Kept(e.open, r), k);
    if Closes(tf, r, k) {
      assert forall b | b in Kept(e.open, r) :: b.key != k;
    } else if ts != [] {
      NotClosed(e.open, r, k);
    }
  }

  /** Buckets of a key that does not end stay. */
  lemma {:induction false} NotClosed(bs: seq<Bucket>, r: Reason, k: Key)
    requires forall b | b in bs && b.key == k :: !Ends(b, r)
    ensures Holds(Kept(bs, r), k) == Holds(bs, k)
  {
    hide Ends, Kept;
    if bs == [] {
      NoneKept(bs, r);
    } else {
      var prefix, b := bs[..|bs| - 1], bs[|bs| - 1];
      assert b in bs && forall c | c in prefix :: c in bs;
      NotClosed(prefix, r, k);
      if Ends(b, r) {
        LastShut(bs, r);
      } else {
        LastKept(bs, r);
        HoldsOfAppend(Kept(prefix, r), b, k);
      }
    }
  }

  lemma LastShut(bs: seq<Bucket>, r: Reason)
    requires bs != [] && Ends(bs[|bs| - 1], r)
    ensures Kept(bs, r) == Kept(bs[..|bs| - 1], r)
  {
    hide Ends;
    assert Kept(bs, r) == Kept(bs[..|bs| - 1], r) + [];
  }

  lemma OpenEndsWithItsKey(tf: Timeframe, ops: seq<Op>, e: Engine, b: Bucket)
    requires Sound(tf, ops, e) && b in e.open
    ensures b.key == Build(tf, Current(tf, ops, b.key)).key && !b.closed
    ensures forall r :: Ends(b, r) <==> Closes(tf, r, b.key)
  {
    hide Current, Build, Closes, Ends, KeyOf, Tally, ClosedRight;
    assert OpenRight(tf, b, Current(tf, ops, b.key));
    CurrentFacts(tf, ops, b.key);
    BuildEnds(tf, Current(tf, ops, b.key), b.key);
  }

  /** The closing half of every operation. */
  lemma ClosingIsHalfway(tf: Timeframe, ops: seq<Op>, op: Op, e: Engine)
    requires Sound(tf, ops, e)
    ensures Halfway(tf, ops, op, CloseBy(e, ReasonOf(op)))
  {
    hide Current, Build, Closes, Ends, KeyOf, Tally, Kept, Shut, ClosedEvents, ReasonOf;
    var r := ReasonOf(op);
    var after := CloseBy(e, r);
    forall b | b in e.open ensures forall q :: Ends(b, q) <==> Closes(tf, q, b.key) {
      OpenEndsWithItsKey(tf, ops, e, b);
    }
    forall k
      ensures Tally(after, k, Left(tf, Current(tf, ops, k), r, k), Openings(tf, ops, k), Extensions(tf, ops, k))
    {
      ClosingTallies(tf, e, r, k, Current(tf, ops, k), Openings(tf, ops, k), Extensions(tf, ops, k));
    }
    ClosingContents(e.open, r);
    forall p | p in after.published && p.kind.CandleClosed? ensures ClosedRight(tf, ops + [op], p.candle) {
      if p in e.published {
        ClosedStays(tf, ops, op, p.candle);
      } else {
        var b :| b in e.open && Ends(b, r) && p.candle == Finalize(b);
        assert OpenRight(tf, b, Current(tf, ops, b.key));
        ClosedNow(tf, ops, op, b);
      }
    }
  }

  lemma ClosedNow(tf: Timeframe, ops: seq<Op>, op: Op, b: Bucket)
    requires OpenRight(tf, b, Current(tf, ops, b.key)) && Closes(tf, ReasonOf(op), b.key)
    ensures ClosedRight(tf, ops + [op], Finalize(b))
  {
    hide Current, Build, Closes, ReasonOf;
    assert (ops + [op])[..|ops|] == ops;
    assert ClosedBy(tf, ops + [op], Finalize(b), |ops|);
  }

  /** An operation that brings no new tick is done at that point. */
  lemma NothingNew(tf: Timeframe, ops: seq<Op>, op: Op, e: Engine)
    requires Halfway(tf, ops, op, e)
    requires op.Arrive? ==> forall k | Hits(tf, op, k) :: HasSignature(Left(tf, Current(tf, ops, k), ReasonOf(op), k), SignatureOf(op.tick))
    ensures Sound(tf, ops + [op], e)
  {
    hide Current, Build, Closes, Hits, HasSignature, ReasonOf, SignatureOf, ClosedRight;
    forall k
      ensures Current(tf, ops + [op], k) == Left(tf, Current(tf, ops, k), ReasonOf(op), k)
      ensures Openings(tf, ops + [op], k) == Openings(tf, ops, k) && Extensions(tf, ops + [op], k) == Extensions(tf, ops, k)
    {
      CurrentStep(tf, ops, op, k);
      if Hits(tf, op, k) {
        HitsTell(tf, op, k);
        HitsSpare(tf, op, k);
        NoSignatures(SignatureOf(op.tick));
      }
    }
  }

  lemma NoSignatures(s: Signature)
    ensures !HasSignature([], s)
  {
  }

  /** How opening a bucket tells on every bucket's tally. */
  lemma OpeningTallies(tf: Timeframe, ops: seq<Op>, op: Op, e: Engine, made: Bucket, k: Key)
    requires op.Arrive? && Hits(tf, op, made.key) && !made.closed && made.trades == 1
    requires Tally(e, k, Left(tf, Current(tf, ops, k), ReasonOf(op), k), Openings(tf, ops, k), Extensions(tf, ops, k))
    requires k == made.key ==> Current(tf, ops, k) == []
    ensures Tally(Engine(e.open + [made], e.published + [EventFor(made)]), k,
                  Current(tf, ops + [op], k), Openings(tf, ops + [op], k), Extensions(tf, ops + [op], k))
    ensures Current(tf, ops + [op], k) == if k == made.key then [op.tick] else Left(tf, Current(tf, ops, k), ReasonOf(op), k)
  {
    hide Current, Openings, Extensions, Holds, Count, InSession, KeyOf, HasSignature, Closes, ReasonOf, SignatureOf;
    CurrentStep(tf, ops, op, k);
    NoSignatures(SignatureOf(op.tick));
    HoldsOfAppend(e.open, made, k);
    AppendedCounts(e.published, EventFor(made), k);
  }

  lemma OpeningFacts(tf: Timeframe, ops: seq<Op>, op: Op, e: Engine)
    requires op.Arrive? && Hits(tf, op, KeyOf(tf, op.tick)) && Halfway(tf, ops, op, e)
    requires forall b | b in e.open :: b.key != KeyOf(tf, op.tick)
    ensures var made := Create(tf, op.tick);
            made.key == KeyOf(tf, op.tick) && !made.closed && made.trades == 1 && OpenRight(tf, made, [op.tick])
    ensures Current(tf, ops, KeyOf(tf, op.tick)) == []
  {
    hide Current, Closes, KeyOf, InSession, BucketEnd, SignatureOf, Holds, Count, OpenRight, ClosedRight, ReasonOf;
    var key := KeyOf(tf, op.tick);
    HitsSpare(tf, op, key);
    HoldsIsMembership(e.open, key);
    assert Tally(e, key, Left(tf, Current(tf, ops, key), ReasonOf(op), key), Openings(tf, ops, key), Extensions(tf, ops, key));
    CreatedRight(tf, op.tick);
  }

  lemma CreatedRight(tf: Timeframe, t: Tick)
    ensures OpenRight(tf, Create(tf, t), [t])
  {
    hide KeyOf, BucketEnd;
  }

  /** The first tick since the last close opens the bucket. */
  lemma OpeningKeepsSound(tf: Timeframe, ops: seq<Op>, op: Op, e: Engine)
    requires op.Arrive? && Hits(tf, op, KeyOf(tf, op.tick)) && Halfway(tf, ops, op, e)
    requires forall b | b in e.open :: b.key != KeyOf(tf, op.tick)
    ensures Sound(tf, ops + [op], Engine(e.open + [Create(tf, op.tick)], e.published + [EventFor(Create(tf, op.tick))]))
  {
    hide Current, Openings, Extensions, Hits, Left, ReasonOf, Create, KeyOf, OpenRight, ClosedRight, Tally;
    var made := Create(tf, op.tick);
    OpeningFacts(tf, ops, op, e);
    var after := Engine(e.open + [made], e.published + [EventFor(made)]);
    forall k
      ensures Tally(after, k, Current(tf, ops + [op], k), Openings(tf, ops + [op], k), Extensions(tf, ops + [op], k))
      ensures Current(tf, ops + [op], k) == if k == made.key then [op.tick] else Left(tf, Current(tf, ops, k), ReasonOf(op), k)
    {
      assert Tally(e, k, Left(tf, Current(tf, ops, k), ReasonOf(op), k), Openings(tf, ops, k), Extensions(tf, ops, k));
      OpeningTallies(tf, ops, op, e, made, k);
    }
    forall b | b in after.open ensures OpenRight(tf, b, Current(tf, ops + [op], b.key)) {
      assert b in e.open || b == made;
    }
    forall p | p in after.published && p.kind.CandleClosed? ensures ClosedRight(tf, ops + [op], p.candle) {
      assert p in e.published || p == EventFor(made);
    }
  }

  /** How a further tick tells on every bucket's tally. */
  lemma UpdatingTallies(tf: Timeframe, ops: seq<Op>, op: Op, e: Engine, i: nat, now: Bucket, k: Key)
    requires op.Arrive? && Hits(tf, op, now.key) && !now.closed && now.trades > 1 && !Closes(tf, ReasonOf(op), now.key)
    requires i < |e.open| && e.open[i].key == now.key
    requires Tally(e, k, Left(tf, Current(tf, ops, k), ReasonOf(op), k), Openings(tf, ops, k), Extensions(tf, ops, k))
    requires k == now.key ==> Current(tf, ops, k) != [] && !HasSignature(Current(tf, ops, k), SignatureOf(op.tick))
    ensures Tally(Engine(e.open[i := now], e.published + [EventFor(now)]), k,
                  Current(tf, ops + [op], k), Openings(tf, ops + [op], k), Extensions(tf, ops + [op], k))
    ensures Current(tf, ops + [op], k)
            == if k == now.key then Current(tf, ops, k) + [op.tick] else Left(tf, Current(tf, ops, k), ReasonOf(op), k)
  {
    hide Current, Openings, Extensions, Holds, Count, InSession, KeyOf, HasSignature, Closes, ReasonOf, SignatureOf;
    CurrentStep(tf, ops, op, k);
    HoldsOfReplaced(e.open, i, now, k);
    AppendedCounts(e.published, EventFor(now), k);
  }

  /** A further distinct tick updates it. */
  lemma UpdatingKeepsSound(tf: Timeframe, ops: seq<Op>, op: Op, e: Engine, i: nat)
    requires op.Arrive? && Hits(tf, op, KeyOf(tf, op.tick)) && Halfway(tf, ops, op, e)
    requires i < |e.open| && e.open[i].key == KeyOf(tf, op.tick) && SignatureOf(op.tick) !in e.open[i].seen
    ensures Sound(tf, ops + [op],
                  Engine(e.open[i := Update(e.open[i], op.tick)], e.published + [EventFor(Update(e.open[i], op.tick))]))
  {
    hide Current, Openings, Extensions, Hits, Left, ReasonOf, Update, KeyOf, OpenRight, ClosedRight, Tally, SignatureOf, HasSignature, Closes;
    var now := Update(e.open[i], op.tick);
    UpdatedFacts(tf, ops, op, e, i);
    HitsSpare(tf, op, now.key);
    var after := Engine(e.open[i := now], e.published + [EventFor(now)]);
    forall k
      ensures Tally(after, k, Current(tf, ops + [op], k), Openings(tf, ops + [op], k), Extensions(tf, ops + [op], k))
      ensures Current(tf, ops + [op], k)
              == if k == now.key then Current(tf, ops, k) + [op.tick] else Left(tf, Current(tf, ops, k), ReasonOf(op), k)
    {
      assert Tally(e, k, Left(tf, Current(tf, ops, k), ReasonOf(op), k), Openings(tf, ops, k), Extensions(tf, ops, k));
      UpdatingTallies(tf, ops, op, e, i, now, k);
    }
    forall j | 0 <= j < |after.open| ensures OpenRight(tf, after.open[j], Current(tf, ops + [op], after.open[j].key)) {
      if j != i {
        HeldOnce(tf, ops, op, e, i, j);
        assert after.open[j] in e.open;
      }
    }
    forall p | p in after.published && p.kind.CandleClosed? ensures ClosedRight(tf, ops + [op], p.candle) {
      assert p in e.published || p == EventFor(now);
    }
  }

  /** Open buckets have different keys. */
  lemma HeldOnce(tf: Timeframe, ops: seq<Op>, op: Op, e: Engine, i: nat, j: nat)
    requires Halfway(tf, ops, op, e) && i < |e.open| && j < |e.open| && i != j
    ensures e.open[i].key != e.open[j].key
  {
    hide Current, Holds, Count, OpenRight, ClosedRight, Left;
    var key := e.open[i].key;
    assert Tally(e, key, Left(tf, Current(tf, ops, key), ReasonOf(op), key), Openings(tf, ops, key), Extensions(tf, ops, key));
    if e.open[j].key == key {
      SoleHolder(e.open, if i < j then i else j, if i < j then j else i);
    }
  }

  lemma UpdatedFacts(tf: Timeframe, ops: seq<Op>, op: Op, e: Engine, i: nat)
    requires op.Arrive? && Hits(tf, op, KeyOf(tf, op.tick)) && Halfway(tf, ops, op, e)
    requires i < |e.open| && e.open[i].key == KeyOf(tf, op.tick) && SignatureOf(op.tick) !in e.open[i].seen
    ensures var now, before := Update(e.open[i], op.tick), Current(tf, ops, KeyOf(tf, op.tick));
            && now.key == KeyOf(tf, op.tick) && !now.closed && now.trades > 1
            && before != [] && !HasSignature(before, SignatureOf(op.tick))
            && OpenRight(tf, now, before + [op.tick])
  {
    var key := KeyOf(tf, op.tick);
    var before := Current(tf, ops, key);
    HitsSpare(tf, op, key);
    assert e.open[i] in e.open;
    assert OpenRight(tf, e.open[i], Left(tf, before, ReasonOf(op), key));
    hide Current, Build, Closes, HasSignature, ReasonOf, SignatureOf, ClosedRight, KeyOf, InSession, Tally;
    CurrentFacts(tf, ops, key);
    BuildEnds(tf, before, key);
    BuildTrades(tf, before);
    BuildSeen(tf, before, SignatureOf(op.tick));
    BuildMore(tf, before, op.tick);
    UpdateFacts(e.open[i], op.tick);
  }

  lemma ArrivalKeepsSound(tf: Timeframe, ops: seq<Op>, op: Op, e: Engine)
    requires op.Arrive? && Sound(tf, ops, e)
    ensures Sound(tf, ops + [op], ProcessTick(tf, e, op.tick, op.session))
  {
    hide Sound, Halfway, Create, Update, InSession, KeyOf, SignatureOf, Current, HasSignature, Left;
    var t := op.tick;
    var due := EndPassed(t.timestamp);
    var e1 := CloseBy(e, due);
    ClosingIsHalfway(tf, ops, op, e);
    ClosingContents(e.open, due);
    NothingDue(e1.open, due);
    assert e1.published + EventsFor([]) == e1.published;
    if !InSession(t, op.session) {
      NothingNew(tf, ops, op, e1);
    } else {
      var at := Position(e1.open, KeyOf(tf, t));
      match at {
        case None =>
          OneEvent(Create(tf, t));
          OpeningKeepsSound(tf, ops, op, e1);
        case Some(i) =>
          SeenBefore(tf, ops, op, e1, i);
          if SignatureOf(t) in e1.open[i].seen {
            NothingNew(tf, ops, op, e1);
          } else {
            OneEvent(Update(e1.open[i], t));
            UpdatingKeepsSound(tf, ops, op, e1, i);
          }
      }
    }
  }

  lemma SeenBefore(tf: Timeframe, ops: seq<Op>, op: Op, e: Engine, i: nat)
    requires Halfway(tf, ops, op, e) && op.Arrive? && i < |e.open| && e.open[i].key == KeyOf(tf, op.tick)
    ensures !e.open[i].closed
    ensures SignatureOf(op.tick) in e.open[i].seen <==>
            HasSignature(Left(tf, Current(tf, ops, KeyOf(tf, op.tick)), ReasonOf(op), KeyOf(tf, op.tick)), SignatureOf(op.tick))
  {
    hide Current, Build, Closes, HasSignature, ReasonOf, SignatureOf, ClosedRight, KeyOf, Tally;
    var key := KeyOf(tf, op.tick);
    var ts := Left(tf, Current(tf, ops, key), ReasonOf(op), key);
    assert e.open[i] in e.open;
    assert OpenRight(tf, e.open[i], ts);
    CurrentFacts(tf, ops, key);
    BuildEnds(tf, ts, key);
    BuildSeen(tf, ts, SignatureOf(op.tick));
  }

  lemma StepKeepsSound(tf: Timeframe, ops: seq<Op>, op: Op, e: Engine)
    requires Sound(tf, ops, e)
    ensures Sound(tf, ops + [op], Step(tf, e, op))
  {
    hide Sound, Halfway, Current, CloseBy, ProcessTick, HasSignature, Left;
    if op.Arrive? {
      ArrivalKeepsSound(tf, ops, op, e);
    } else {
      ClosingIsHalfway(tf, ops, op, e);
      NothingNew(tf, ops, op, CloseBy(e, ReasonOf(op)));
    }
  }

  lemma {:induction false} RunIsSound(tf: Timeframe, ops: seq<Op>)
    ensures Sound(tf, ops, Run(tf, ops))
  {
    hide Step;
    if ops != [] {
      hide Sound;
      var prefix := ops[..|ops| - 1];
      RunIsSound(tf, prefix);
      assert ops == prefix + [ops[|ops| - 1]];
      StepKeepsSound(tf, prefix, ops[|ops| - 1], Run(tf, prefix));
    } else {
      forall k ensures Tally(IDLE, k, Current(tf, ops, k), Openings(tf, ops, k), Extensions(tf, ops, k)) {
        assert Current(tf, ops, k) == [];
        assert Holds([], k) == 0;
        assert forall kind :: Count([], kind, k) == 0;
      }
    }
  }

  /** In every run, whatever the order of its operations and for every timeframe, each closing candle
      is the candle of the distinct in-session ticks the bucket received between being opened and
      being closed, and each open bucket's candle that of its ticks since it was opened. */
  lemma EveryCandleIsItsTicks(tf: Timeframe, ops: seq<Op>)
    ensures forall p | p in Run(tf, ops).published && p.kind.CandleClosed? ::
              exists i :: && 0 <= i < |ops| && Closes(tf, ReasonOf(ops[i]), p.candle.key)
                          && IsCandleOf(p.candle, Current(tf, ops[..i], p.candle.key))
    ensures forall b | b in Run(tf, ops).open :: IsCandleOf(Finalize(b), Current(tf, ops, b.key))
  {
    hide Run, Current, Build, IsCandleOf, Closes, Tally, ReasonOf;
    RunIsSound(tf, ops);
    var e := Run(tf, ops);
    forall p | p in e.published && p.kind.CandleClosed?
      ensures exists i :: && 0 <= i < |ops| && Closes(tf, ReasonOf(ops[i]), p.candle.key)
                          && IsCandleOf(p.candle, Current(tf, ops[..i], p.candle.key))
    {
      assert ClosedRight(tf, ops, p.candle);
      var i :| ClosedBy(tf, ops, p.candle, i);
      CurrentFacts(tf, ops[..i], p.candle.key);
      BuildIsBatch(tf, Current(tf, ops[..i], p.candle.key));
    }
    forall b | b in e.open ensures IsCandleOf(Finalize(b), Current(tf, ops, b.key)) {
      assert OpenRight(tf, b, Current(tf, ops, b.key));
      CurrentFacts(tf, ops, b.key);
      BuildIsBatch(tf, Current(tf, ops, b.key));
    }
  }

  // ---- late ticks -------------------------------------------------------------------------------

  ghost predicate LateAt(tf: Timeframe, ops: seq<Op>, k: Key, m: int, i: int, j: int) {
    && 0 <= m < i < j < |ops|
    && Hits(tf, ops[m], k) && Closes(tf, ReasonOf(ops[i]), k) && Hits(tf, ops[j], k)
  }

  /** A tick of the bucket arrives after an operation that closed it: the operation came after an
      earlier tick of the bucket, at or past the bucket's end. */
  ghost predicate Late(tf: Timeframe, ops: seq<Op>, k: Key) {
    exists m, i, j :: LateAt(tf, ops, k, m, i, j)
  }

  lemma IsLate(tf: Timeframe, ops: seq<Op>, k: Key, m: int, i: int, j: int)
    requires LateAt(tf, ops, k, m, i, j)
    ensures Late(tf, ops, k)
  {
  }

  lemma LateGrows(tf: Timeframe, ops: seq<Op>, n: nat, k: Key)
    requires n <= |ops| && Late(tf, ops[..n], k)
    ensures Late(tf, ops, k)
  {
    hide Hits, Closes, ReasonOf;
    var m, i, j :| LateAt(tf, ops[..n], k, m, i, j);
    assert LateAt(tf, ops, k, m, i, j);
  }

  /** A bucket that is not open and had a tick has been closed since. */
  lemma {:induction false} ClosedSince(tf: Timeframe, ops: seq<Op>, k: Key, m: nat) returns (i: nat)
    requires m < |ops| && Hits(tf, ops[m], k) && Current(tf, ops, k) == []
    ensures m < i < |ops| && Closes(tf, ReasonOf(ops[i]), k)
  {
    hide Hits, Closes, ReasonOf, HasSignature, SignatureOf;
    i := |ops| - 1;
    var prefix, op := ops[..i], ops[i];
    HitsLast(tf, ops, k);
    if !Closes(tf, ReasonOf(op), k) {
      assert m < i && prefix[m] == ops[m];
      i := ClosedSince(tf, prefix, k, m);
      assert prefix[i] == ops[i];
    } else if m == i {
      HitsSpare(tf, op, k);
    }
  }

  /** Right after one of its ticks a bucket is open. */
  lemma HitsLast(tf: Timeframe, ops: seq<Op>, k: Key)
    requires ops != []
    ensures Hits(tf, ops[|ops| - 1], k) ==> Current(tf, ops, k) != []
  {
    hide KeyOf, InSession, Closes, ReasonOf;
  }

  /** An open bucket had a tick and has not been closed since. */
  lemma {:induction false} OpenSince(tf: Timeframe, ops: seq<Op>, k: Key) returns (m: nat)
    requires Current(tf, ops, k) != []
    ensures m < |ops| && Hits(tf, ops[m], k) && forall i | m < i < |ops| :: !Closes(tf, ReasonOf(ops[i]), k)
  {
    hide Hits, Closes, ReasonOf, HasSignature, SignatureOf;
    m := |ops| - 1;
    var prefix := ops[..m];
    if !Hits(tf, ops[m], k) {
      m := OpenSince(tf, prefix, k);
      assert ops == prefix + [ops[|ops| - 1]];
    }
  }

  lemma {:induction false} OpeningsGrow(tf: Timeframe, ops: seq<Op>, n: nat, k: Key)
    requires n <= |ops|
    ensures Openings(tf, ops, k) >= Openings(tf, ops[..n], k)
    ensures Current(tf, ops[..n], k) == [] && Current(tf, ops, k) != [] ==> Openings(tf, ops, k) > Openings(tf, ops[..n], k)
    decreases |ops|
  {
    hide Hits, Closes, ReasonOf, HasSignature, SignatureOf;
    if n < |ops| {
      var prefix := ops[..|ops| - 1];
      assert prefix[..n] == ops[..n];
      OpeningsGrow(tf, prefix, n, k);
    } else {
      assert ops[..n] == ops;
    }
  }

  lemma {:induction false} OpenWasOpened(tf: Timeframe, ops: seq<Op>, k: Key)
    ensures Current(tf, ops, k) != [] ==> Openings(tf, ops, k) >= 1
  {
    hide Hits, Closes, ReasonOf, HasSignature, SignatureOf;
    if ops != [] {
      OpenWasOpened(tf, ops[..|ops| - 1], k);
    } else {
      assert Current(tf, ops, k) == [];
    }
  }

  lemma Closing(tf: Timeframe, ops: seq<Op>, i: nat, k: Key)
    requires i < |ops| && Closes(tf, ReasonOf(ops[i]), k)
    ensures Current(tf, ops[..i + 1], k) == []
  {
    hide Hits, Closes, ReasonOf, HasSignature, SignatureOf, Current, Openings, Extensions;
    if Hits(tf, ops[i], k) {
      HitsSpare(tf, ops[i], k);
    }
    assert ops[..i + 1] == ops[..i] + [ops[i]];
    CurrentStep(tf, ops[..i], ops[i], k);
  }

  /** A late tick opens its bucket again. */
  lemma LateOpensAgain(tf: Timeframe, ops: seq<Op>, k: Key)
    requires Late(tf, ops, k)
    ensures Openings(tf, ops, k) >= 2
  {
    hide Hits, Closes, ReasonOf, Current, Openings;
    var m, i, j :| LateAt(tf, ops, k, m, i, j);
    HitsLast(tf, ops[..m + 1], k);
    OpenWasOpened(tf, ops[..m + 1], k);
    Closing(tf, ops, i, k);
    HitsLast(tf, ops[..j + 1], k);
    assert ops[..i + 1][..m + 1] == ops[..m + 1] && ops[..j + 1][..i + 1] == ops[..i + 1];
    OpeningsGrow(tf, ops[..i + 1], m + 1, k);
    OpeningsGrow(tf, ops[..j + 1], i + 1, k);
    OpeningsGrow(tf, ops, j + 1, k);
  }

  lemma {:induction false} DistinctIsHit(tf: Timeframe, ops: seq<Op>, k: Key)
    ensures Distinct(tf, ops, k) != [] <==> exists m :: 0 <= m < |ops| && Hits(tf, ops[m], k)
  {
    hide SignatureOf, KeyOf, InSession;
    if ops != [] {
      var prefix := ops[..|ops| - 1];
      assert ops == prefix + [ops[|ops| - 1]];
      DistinctIsHit(tf, prefix, k);
      NoneHas(ops[|ops| - 1]);
      if Distinct(tf, prefix, k) != [] {
        var m :| 0 <= m < |prefix| && Hits(tf, prefix[m], k);
        assert Hits(tf, ops[m], k);
      }
      if m :| 0 <= m < |ops| && Hits(tf, ops[m], k) {
        assert m < |prefix| ==> Hits(tf, prefix[m], k);
      }
    } else {
      assert Distinct(tf, ops, k) == [];
    }
  }

  lemma NoneHas(op: Op)
    ensures op.Arrive? ==> !HasSignature([], SignatureOf(op.tick))
  {
  }

  lemma DistinctStep(tf: Timeframe, ops: seq<Op>, op: Op, k: Key)
    ensures Distinct(tf, ops + [op], k) == Extended(tf, Distinct(tf, ops, k), op, k)
  {
    hide KeyOf, InSession, HasSignature;
    assert (ops + [op])[..|ops|] == ops;
  }

  /** Without late ticks a bucket is opened once and never loses a tick while open. */
  ghost predicate Whole(tf: Timeframe, ops: seq<Op>, k: Key) {
    var ts := Distinct(tf, ops, k);
    && Openings(tf, ops, k) == (if ts != [] then 1 else 0)
    && Extensions(tf, ops, k) == (if ts != [] then |ts| - 1 else 0)
    && (Current(tf, ops, k) == [] || Current(tf, ops, k) == ts)
  }

  lemma {:induction false} NotLateIsWhole(tf: Timeframe, ops: seq<Op>, k: Key)
    requires !Late(tf, ops, k)
    ensures Whole(tf, ops, k)
  {
    hide Late, Whole, Hits;
    if ops == [] {
      NothingIsWhole(tf, ops, k);
    } else {
      var n := |ops| - 1;
      var prefix, op := ops[..n], ops[n];
      assert ops == prefix + [op];
      if Late(tf, prefix, k) {
        LateGrows(tf, ops, n, k);
      }
      NotLateIsWhole(tf, prefix, k);
      if Hits(tf, op, k) && Current(tf, prefix, k) == [] {
        FirstTick(tf, prefix, op, k);
      }
      WholeStep(tf, prefix, op, k);
    }
  }

  lemma NothingIsWhole(tf: Timeframe, ops: seq<Op>, k: Key)
    requires ops == []
    ensures Whole(tf, ops, k)
  {
  }

  /** Without late ticks, a tick that finds its bucket closed is the bucket's first. */
  lemma FirstTick(tf: Timeframe, ops: seq<Op>, op: Op, k: Key)
    requires !Late(tf, ops + [op], k) && Hits(tf, op, k) && Current(tf, ops, k) == []
    ensures Distinct(tf, ops, k) == []
  {
    hide Hits, Closes, ReasonOf, Current, Distinct, Late;
    DistinctIsHit(tf, ops, k);
    if m :| 0 <= m < |ops| && Hits(tf, ops[m], k) {
      var i := ClosedSince(tf, ops, k, m);
      IsLate(tf, ops + [op], k, m, i, |ops|);
    }
  }

  lemma WholeStep(tf: Timeframe, ops: seq<Op>, op: Op, k: Key)
    requires Whole(tf, ops, k)
    requires Hits(tf, op, k) && Current(tf, ops, k) == [] ==> Distinct(tf, ops, k) == []
    ensures Whole(tf, ops + [op], k)
  {
    hide Hits, Closes, ReasonOf, HasSignature, SignatureOf, Current, Distinct, Openings, Extensions;
    CurrentStep(tf, ops, op, k);
    DistinctStep(tf, ops, op, k);
    NoneHas(op);
    if Hits(tf, op, k) {
      HitsTell(tf, op, k);
      HitsSpare(tf, op, k);
    }
  }

  lemma {:induction false} NoTickNoChange(tf: Timeframe, ops: seq<Op>, n: nat, k: Key)
    requires n <= |ops| && forall j | n <= j < |ops| :: !Hits(tf, ops[j], k)
    ensures Distinct(tf, ops, k) == Distinct(tf, ops[..n], k)
    decreases |ops|
  {
    hide Hits, HasSignature, SignatureOf, Distinct;
    if n < |ops| {
      var prefix, op := ops[..|ops| - 1], ops[|ops| - 1];
      assert prefix[..n] == ops[..n] && ops == prefix + [op];
      NoTickNoChange(tf, prefix, n, k);
      DistinctStep(tf, prefix, op, k);
    } else {
      assert ops[..n] == ops;
    }
  }

  /** What an operation closes is then all the bucket will ever have. */
  lemma ClosedIsWhole(tf: Timeframe, ops: seq<Op>, i: nat, k: Key)
    requires !Late(tf, ops, k)
    requires i < |ops| && Closes(tf, ReasonOf(ops[i]), k) && Current(tf, ops[..i], k) != []
    ensures Current(tf, ops[..i], k) == Distinct(tf, ops, k)
  {
    hide Hits, Closes, ReasonOf, Current, Distinct, Openings, Extensions, Late;
    var m := OpenSince(tf, ops[..i], k);
    assert Hits(tf, ops[m], k);
    forall j | i <= j < |ops| ensures !Hits(tf, ops[j], k) {
      if Hits(tf, ops[j], k) {
        if j == i {
          HitsSpare(tf, ops[i], k);
        } else {
          IsLate(tf, ops, k, m, i, j);
        }
      }
    }
    NoTickNoChange(tf, ops, i, k);
    if Late(tf, ops[..i], k) {
      LateGrows(tf, ops, i, k);
    }
    NotLateIsWhole(tf, ops[..i], k);
  }

  // ---- one fate ---------------------------------------------------------------------------------

  /** Nothing of the bucket is lost or published twice: with ticks it is opened once, updated once
      for every further distinct tick, and is open or was closed exactly once; without, it leaves no
      trace. */
  ghost predicate Fate(tf: Timeframe, ops: seq<Op>, e: Engine, k: Key) {
    var n := |Distinct(tf, ops, k)|;
    && Holds(e.open, k) + Count(e.published, CandleClosed, k) == (if n > 0 then 1 else 0)
    && Count(e.published, CandleOpened, k) == (if n > 0 then 1 else 0)
    && Count(e.published, CandleUpdated, k) == (if n > 0 then n - 1 else 0)
  }

  /** Streaming keeps the bucket's one fate exactly when no tick of it is late. */
  lemma EveryBucketHasOneFate(tf: Timeframe, ops: seq<Op>, k: Key)
    ensures Fate(tf, ops, Run(tf, ops), k) <==> !Late(tf, ops, k)
  {
    hide Run, Distinct, Current, Openings, Extensions, Late, OpenRight, ClosedRight, Holds, Count;
    RunIsSound(tf, ops);
    assert Tally(Run(tf, ops), k, Current(tf, ops, k), Openings(tf, ops, k), Extensions(tf, ops, k));
    if Late(tf, ops, k) {
      LateOpensAgain(tf, ops, k);
    } else {
      NotLateIsWhole(tf, ops, k);
    }
  }

  /** And then streaming refines batch: for every timeframe, the closing candle of the bucket is the
      candle of its distinct in-session ticks, and so is an open one's so far. */
  lemma StreamingIsBatch(tf: Timeframe, ops: seq<Op>, k: Key)
    requires !Late(tf, ops, k)
    ensures forall p | p in Run(tf, ops).published && p.kind.CandleClosed? && p.candle.key == k :: IsCandleOf(p.candle, Distinct(tf, ops, k))
    ensures forall b | b in Run(tf, ops).open && b.key == k :: IsCandleOf(Finalize(b), Distinct(tf, ops, k))
  {
    hide Run, Current, Distinct, Build, IsCandleOf, Closes, Tally, ReasonOf, Late, Openings, Extensions;
    EveryCandleIsItsTicks(tf, ops);
    var e := Run(tf, ops);
    forall p | p in e.published && p.kind.CandleClosed? && p.candle.key == k ensures IsCandleOf(p.candle, Distinct(tf, ops, k)) {
      var i :| && 0 <= i < |ops| && Closes(tf, ReasonOf(ops[i]), k) && IsCandleOf(p.candle, Current(tf, ops[..i], k));
      SomeTicks(p.candle, Current(tf, ops[..i], k));
      ClosedIsWhole(tf, ops, i, k);
    }
    forall b | b in e.open && b.key == k ensures IsCandleOf(Finalize(b), Distinct(tf, ops, k)) {
      SomeTicks(Finalize(b), Current(tf, ops, k));
      NotLateIsWhole(tf, ops, k);
    }
  }

  lemma SomeTicks(c: Candle, ts: seq<Tick>)
    requires IsCandleOf(c, ts)
    ensures ts != []
  {
  }

  // ---- operations in the order of their times ---------------------------------------------------

  function Time(op: Op): nat {
    match op
    case Arrive(t, _) => t.timestamp
    case CloseAt(at) => at
    case CloseSession(_, at) => at
  }

  predicate Timely(ops: seq<Op>) {
    forall i, j | 0 <= i < j < |ops| :: Time(ops[i]) <= Time(ops[j])
  }

  /** Then nothing is late. */
  lemma TimelyIsNeverLate(tf: Timeframe, ops: seq<Op>, k: Key)
    requires Timely(ops)
    ensures !Late(tf, ops, k)
  {
    hide BucketEnd, Align, InSession;
    if m, i, j :| LateAt(tf, ops, k, m, i, j) {
      AlignContains(tf, ops[j].tick.timestamp);
      assert Time(ops[i]) <= Time(ops[j]);
    }
  }

  /** An open bucket's start is that of any later tick that leaves it open. */
  lemma SharedStart(tf: Timeframe, ops: seq<Op>, m: nat, n: nat, k: Key, l: Key)
    requires Timely(ops) && !tf.OneMonth? && m <= n < |ops|
    requires Hits(tf, ops[m], k) && Hits(tf, ops[n], l) && !Closes(tf, ReasonOf(ops[n]), k)
    ensures k.start == l.start
  {
    hide BucketEnd, Align, InSession;
    assert Time(ops[m]) <= Time(ops[n]);
    AlignContains(tf, ops[m].tick.timestamp);
    BucketOwnsItsMoments(tf, ops[m].tick.timestamp, ops[n].tick.timestamp);
  }

  /** For every timeframe but the month, at most one bucket is open per symbol and exchange. */
  lemma OneOpenBucketPerSymbol(tf: Timeframe, ops: seq<Op>, i: nat, j: nat)
    requires Timely(ops) && !tf.OneMonth?
    requires i < |Run(tf, ops).open| && j < |Run(tf, ops).open| && i != j
    ensures var open := Run(tf, ops).open;
            (open[i].key.symbol, open[i].key.exchange) != (open[j].key.symbol, open[j].key.exchange)
  {
    hide Run, Current, Openings, Extensions, Hits, Closes, ReasonOf, Tally, ClosedRight, Timely, Holds;
    RunIsSound(tf, ops);
    var open := Run(tf, ops).open;
    assert open[i] in open && open[j] in open;
    var k, l := open[i].key, open[j].key;
    assert OpenRight(tf, open[i], Current(tf, ops, k)) && OpenRight(tf, open[j], Current(tf, ops, l));
    var m := OpenSince(tf, ops, k);
    var n := OpenSince(tf, ops, l);
    if m < n {
      SharedStart(tf, ops, m, n, k, l);
    } else {
      if m == n {
        HitsSpare(tf, ops[m], l);
        HitsTell(tf, ops[m], k);
      }
      SharedStart(tf, ops, n, m, l, k);
    }
    KeysDiffer(tf, ops, Run(tf, ops), i, j);
  }

  lemma KeysDiffer(tf: Timeframe, ops: seq<Op>, e: Engine, i: nat, j: nat)
    requires Sound(tf, ops, e) && i < |e.open| && j < |e.open| && i != j
    ensures e.open[i].key != e.open[j].key
  {
    hide Current, Holds, Count, OpenRight, ClosedRight, Openings, Extensions;
    var key := e.open[i].key;
    assert Tally(e, key, Current(tf, ops, key), Openings(tf, ops, key), Extensions(tf, ops, key));
    if e.open[j].key == key {
      SoleHolder(e.open, if i < j then i else j, if i < j then j else i);
    }
  }

  // ---- different ticks count --------------------------------------------------------------------

  /** A tick of an open bucket is among its ticks, or one that is the same is. */
  lemma {:induction false} TickIsAmong(tf: Timeframe, ops: seq<Op>, k: Key, i: nat) returns (m: nat)
    requires i < |ops| && Hits(tf, ops[i], k) && forall n | i < n < |ops| :: !Closes(tf, ReasonOf(ops[n]), k)
    ensures m < |Current(tf, ops, k)| && Same(Current(tf, ops, k)[m], ops[i].tick)
    decreases |ops|
  {
    hide Hits, Closes, ReasonOf, SignatureOf;
    var n := |ops| - 1;
    if i < n {
      assert forall j | 0 <= j < n :: ops[..n][j] == ops[j];
      m := TickIsAmong(tf, ops[..n], k, i);
    } else {
      HitsTell(tf, ops[n], k);
      var ts := Left(tf, Current(tf, ops[..n], k), ReasonOf(ops[n]), k);
      m := |ts|;
      if HasSignature(ts, SignatureOf(ops[n].tick)) {
        m :| 0 <= m < |ts| && SignatureOf(ts[m]) == SignatureOf(ops[n].tick);
        SignaturesAgreeIff(ts[m], ops[n].tick);
      }
    }
  }

  lemma {:induction false} SumCovers(ts: seq<Tick>, m: nat, n: nat)
    requires m < n < |ts| && forall i | 0 <= i < |ts| :: ts[i].size.GetOr(0.0) >= 0.0
    ensures SumVolume(ts) >= ts[m].size.GetOr(0.0) + ts[n].size.GetOr(0.0)
    decreases |ts|
  {
    var prefix := ts[..|ts| - 1];
    if n < |ts| - 1 {
      SumCovers(prefix, m, n);
    } else {
      SumCoversOne(prefix, m);
    }
  }

  lemma {:induction false} SumCoversOne(ts: seq<Tick>, m: nat)
    requires m < |ts| && forall i | 0 <= i < |ts| :: ts[i].size.GetOr(0.0) >= 0.0
    ensures SumVolume(ts) >= ts[m].size.GetOr(0.0)
    decreases |ts|
  {
    if m < |ts| - 1 {
      SumCoversOne(ts[..|ts| - 1], m);
    } else {
      SumIsNotNegative(ts[..|ts| - 1]);
    }
  }

  lemma {:induction false} SumIsNotNegative(ts: seq<Tick>)
    requires forall i | 0 <= i < |ts| :: ts[i].size.GetOr(0.0) >= 0.0
    ensures SumVolume(ts) >= 0.0
  {
    if ts != [] {
      SumIsNotNegative(ts[..|ts| - 1]);
    }
  }

  /** Two ticks of one open bucket that differ in their symbol, exchange, timestamp, price, size, bid or
      ask both count: the bucket is open with at least two trades, and with the size of both of them
      when no tick has a negative size. */
  lemma {:induction false} DifferentTicksBothCount(tf: Timeframe, ops: seq<Op>, k: Key, i: nat, j: nat)
    requires i < j < |ops| && Hits(tf, ops[i], k) && Hits(tf, ops[j], k) && !Same(ops[i].tick, ops[j].tick)
    requires forall n | i < n < |ops| :: !Closes(tf, ReasonOf(ops[n]), k)
    ensures exists b :: && b in Run(tf, ops).open && b.key == k && b.trades == |Current(tf, ops, k)| >= 2
                        && ((forall t | t in Current(tf, ops, k) :: t.size.GetOr(0.0) >= 0.0) ==>
                              b.volume >= ops[i].tick.size.GetOr(0.0) + ops[j].tick.size.GetOr(0.0))
  {
    hide Run, Current, Openings, Extensions, Hits, Closes, ReasonOf, Count, Holds, ClosedRight, OpenRight, Spans, IsLast;
    var ts := Current(tf, ops, k);
    var m := TickIsAmong(tf, ops, k, i);
    var n := TickIsAmong(tf, ops, k, j);
    RunIsSound(tf, ops);
    var e := Run(tf, ops);
    assert Tally(e, k, ts, Openings(tf, ops, k), Extensions(tf, ops, k));
    HoldsIsMembership(e.open, k);
    var b :| b in e.open && b.key == k;
    EveryCandleIsItsTicks(tf, ops);
    assert IsCandleOf(Finalize(b), ts);
    if forall t | t in ts :: t.size.GetOr(0.0) >= 0.0 {
      assert forall l | 0 <= l < |ts| :: ts[l] in ts;
      SumCovers(ts, if m < n then m else n, if m < n then n else m);
    }
  }

  // ---- a late tick ------------------------------------------------------------------------------

  function Trade(at: nat, price: real): Tick {
    Tick("BTC", "X", at, price, Some(1.0), None, None, None)
  }

  /** A trade at 0 s, one at 60 s, a late one at 30 s, and the closing of what ended by 120 s. */
  function LateRun(): seq<Op> {
    [Arrive(Trade(0, 100.0), None), Arrive(Trade(MINUTE, 100.0), None), Arrive(Trade(30 * SECOND, 90.0), None), CloseAt(2 * MINUTE)]
  }

  lemma LateRunFacts()
    ensures var ops, k := LateRun(), Key("BTC", "X", 0);
            && Hits(OneMinute, ops[0], k) && !Hits(OneMinute, ops[1], k) && Hits(OneMinute, ops[2], k) && !Hits(OneMinute, ops[3], k)
            && Closes(OneMinute, ReasonOf(ops[1]), k) && Closes(OneMinute, ReasonOf(ops[3]), k)
            && !Closes(OneMinute, ReasonOf(ops[0]), k) && !Closes(OneMinute, ReasonOf(ops[2]), k)
  {
    hide Align;
    AlignIsFloor(OneMinute, 0);
    AlignIsFloor(OneMinute, MINUTE);
    AlignIsFloor(OneMinute, 30 * SECOND);
    assert Align(OneMinute, 0) == 0 && Align(OneMinute, MINUTE) == MINUTE && Align(OneMinute, 30 * SECOND) == 0;
  }

  lemma LateRunTicks()
    ensures var ops, k := LateRun(), Key("BTC", "X", 0);
            && Current(OneMinute, ops[..1], k) == [Trade(0, 100.0)] && Current(OneMinute, ops[..2], k) == []
            && Current(OneMinute, ops[..3], k) == [Trade(30 * SECOND, 90.0)] && Current(OneMinute, ops, k) == []
            && Openings(OneMinute, ops, k) == 2
  {
    hide Hits, Closes, ReasonOf, SignatureOf, Current, Openings, Extensions, HasSignature;
    var ops, k := LateRun(), Key("BTC", "X", 0);
    LateRunFacts();
    NoSignatures(SignatureOf(ops[0].tick));
    NoSignatures(SignatureOf(ops[2].tick));
    NothingYet(OneMinute, k);
    CurrentStep(OneMinute, [], ops[0], k);
    CurrentStep(OneMinute, ops[..1], ops[1], k);
    CurrentStep(OneMinute, ops[..2], ops[2], k);
    CurrentStep(OneMinute, ops[..3], ops[3], k);
    assert [] + [ops[0].tick] == [ops[0].tick] && [] + [ops[2].tick] == [ops[2].tick];
    assert [] + [ops[0]] == ops[..1] && ops[..1] + [ops[1]] == ops[..2] && ops[..2] + [ops[2]] == ops[..3] && ops[..3] + [ops[3]] == ops;
  }

  lemma NothingYet(tf: Timeframe, k: Key)
    ensures Current(tf, [], k) == [] && Openings(tf, [], k) == 0
  {
  }

  /** That run closes the minute's bucket twice, each time with a candle of a single trade. */
  lemma LateTickClosesTwice()
    ensures var e, k := Run(OneMinute, LateRun()), Key("BTC", "X", 0);
            && Late(OneMinute, LateRun(), k)
            && Count(e.published, CandleClosed, k) == 2
            && forall p | p in e.published && p.kind.CandleClosed? && p.candle.key == k :: p.candle.trades == 1
  {
    hide Run, Current, Openings, Extensions, Hits, Closes, ReasonOf, ClosedRight, OpenRight, Holds, Count;
    var ops, k := LateRun(), Key("BTC", "X", 0);
    LateRunFacts();
    LateRunTicks();
    assert LateAt(OneMinute, ops, k, 0, 1, 2);
    RunIsSound(OneMinute, ops);
    var e := Run(OneMinute, ops);
    assert Tally(e, k, Current(OneMinute, ops, k), Openings(OneMinute, ops, k), Extensions(OneMinute, ops, k));
    EveryCandleIsItsTicks(OneMinute, ops);
    forall p | p in e.published && p.kind.CandleClosed? && p.candle.key == k ensures p.candle.trades == 1 {
      var i :| 0 <= i < |ops| && Closes(OneMinute, ReasonOf(ops[i]), k) && IsCandleOf(p.candle, Current(OneMinute, ops[..i], k));
      assert i == 1 || i == 3;
    }
  }

  /** An in-session tick whose bucket is not open, whether it was closed before or not, opens a
      bucket made of that tick alone. */
  lemma {:induction false} LateTickReopens(tf: Timeframe, e: Engine, t: Tick, s: Option<Session>)
    requires InSession(t, s) && forall b | b in e.open :: b.key != KeyOf(tf, t)
    ensures var after := ProcessTick(tf, e, t, s);
            && after.open != [] && after.open[|after.open| - 1] == Create(tf, t)
            && after.published != [] && after.published[|after.published| - 1] == Event(CandleOpened, Finalize(Create(tf, t)))
  {
    hide InSession, KeyOf, SignatureOf, BucketEnd;
    var due := EndPassed(t.timestamp);
    var e1 := CloseBy(e, due);
    ClosingContents(e.open, due);
    ClosingContents(e1.open, due);
    var open := Kept(e1.open, due);
    assert forall i | 0 <= i < |open| :: open[i] in open;
    assert Position(open, KeyOf(tf, t)).None?;
    var reported := Shut(e1.open, due) + [Create(tf, t)];
    assert reported[..|reported| - 1] == Shut(e1.open, due);
  }
}
