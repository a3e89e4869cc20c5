/** Streaming aggregation against its batch definition. */
module AggregationFacts {
  import opened Common
  import opened Calendar
  import opened Aggregation

  // ---- the batch definition -------------------------------------------------------------

  /** Ticks are the same exactly when they agree in all they carry but the exchange's own time. */
  lemma SignaturesAgreeIff(t: Tick, u: Tick)
    ensures SignatureOf(t) == SignatureOf(u) <==> Same(t, u)
  {
  }

  predicate Same(t: Tick, u: Tick) {
    && t.symbol == u.symbol && t.exchange == u.exchange && t.timestamp == u.timestamp
    && t.price == u.price && t.size == u.size && t.bid == u.bid && t.ask == u.ask
  }

  predicate HasSignature(ts: seq<Tick>, s: Signature) {
    exists i :: 0 <= i < |ts| && SignatureOf(ts[i]) == s
  }

  /** The distinct in-session ticks of one bucket, in order of arrival. */
  function Distinct(tf: Timeframe, ops: seq<Op>, k: Key): seq<Tick> {
    if ops == [] then []
    else
      var earlier := Distinct(tf, ops[..|ops| - 1], k);
      match ops[|ops| - 1]
      case Arrive(t, s) =>
        if InSession(t, s) && KeyOf(tf, t) == k && !HasSignature(earlier, SignatureOf(t)) then earlier + [t] else earlier
      case _ => earlier
  }

  function SumVolume(ts: seq<Tick>): real {
    if ts == [] then 0.0
    else SumVolume(ts[..|ts| - 1]) + if ts[|ts| - 1].size.Some? then ts[|ts| - 1].size.value else 0.0
  }

  /** i is the earliest-arriving of the ticks with the latest timestamp. */
  predicate IsLast(ts: seq<Tick>, i: int) {
    && 0 <= i < |ts|
    && (forall j | 0 <= j < |ts| :: ts[j].timestamp <= ts[i].timestamp)
    && (forall j | 0 <= j < i :: ts[j].timestamp < ts[i].timestamp)
  }

  /** low and high are the lowest and the highest price. */
  ghost predicate Spans(ts: seq<Tick>, low: real, high: real) {
    && (forall i | 0 <= i < |ts| :: low <= ts[i].price <= high)
    && (exists i :: 0 <= i < |ts| && ts[i].price == high)
    && (exists i :: 0 <= i < |ts| && ts[i].price == low)
  }

  /** The candle of a batch of ticks: first price, highest, lowest, the price of the last tick,
      the summed volume and the number of ticks. */
  ghost predicate IsCandleOf(c: Candle, ts: seq<Tick>) {
    && ts != []
    && c.open == ts[0].price
    && Spans(ts, c.low, c.high)
    && (exists i :: IsLast(ts, i) && ts[i].price == c.close)
    && c.volume == SumVolume(ts)
    && c.trades == |ts|
  }

  function Build(tf: Timeframe, ts: seq<Tick>): Bucket
    requires ts != []
  {
    if |ts| == 1 then Create(tf, ts[0]) else Update(Build(tf, ts[..|ts| - 1]), ts[|ts| - 1])
  }

  predicate AllDistinct(ts: seq<Tick>) {
    forall i, j | 0 <= i < j < |ts| :: SignatureOf(ts[i]) != SignatureOf(ts[j])
  }

  lemma {:induction false} BuildSeen(tf: Timeframe, ts: seq<Tick>, s: Signature)
    requires ts != []
    ensures s in Build(tf, ts).seen <==> HasSignature(ts, s)
  {
    if |ts| == 1 {
      assert HasSignature(ts, s) <==> SignatureOf(ts[0]) == s;
    } else {
      var prefix := ts[..|ts| - 1];
      BuildSeen(tf, prefix, s);
      if HasSignature(prefix, s) {
        var i :| 0 <= i < |prefix| && SignatureOf(prefix[i]) == s;
        assert SignatureOf(ts[i]) == s;
      }
      if HasSignature(ts, s) {
        var i :| 0 <= i < |ts| && SignatureOf(ts[i]) == s;
        assert i < |prefix| ==> SignatureOf(prefix[i]) == s;
      }
      if SignatureOf(ts[|ts| - 1]) == s {
        assert HasSignature(ts, s);
      }
    }
  }

  lemma {:induction false} BuildKey(tf: Timeframe, ts: seq<Tick>)
    requires ts != []
    ensures var b := Build(tf, ts);
            b.key == KeyOf(tf, ts[0]) && b.end == BucketEnd(tf, b.key.start) && !b.closed
  {
    hide KeyOf, BucketEnd;
    if |ts| > 1 {
      BuildKey(tf, ts[..|ts| - 1]);
    }
  }

  ghost predicate ClosesAt(ts: seq<Tick>, close: real, last: nat) {
    exists i :: IsLast(ts, i) && ts[i].price == close && ts[i].timestamp == last
  }

  ghost predicate Summarizes(b: Bucket, ts: seq<Tick>) {
    IsCandleOf(Finalize(b), ts) && ClosesAt(ts, b.close, b.last)
  }

  lemma CreateSummarizes(tf: Timeframe, t: Tick)
    ensures Summarizes(Create(tf, t), [t])
  {
    hide KeyOf, BucketEnd;
    var ts := [t];
    assert ts[..0] == [] && SumVolume(ts[..0]) == 0.0;
    assert IsLast(ts, 0) && ts[0].price == t.price;
  }

  lemma {:induction false} SpansGrow(ts: seq<Tick>, t: Tick, low: real, high: real)
    requires Spans(ts, low, high)
    ensures Spans(ts + [t], Min(low, t.price), Max(high, t.price))
  {
    var us := ts + [t];
    var top :| 0 <= top < |ts| && ts[top].price == high;
    var bottom :| 0 <= bottom < |ts| && ts[bottom].price == low;
    assert us[|ts|] == t && us[top] == ts[top] && us[bottom] == ts[bottom];
    assert us[if t.price > high then |ts| else top].price == Max(high, t.price);
    assert us[if t.price < low then |ts| else bottom].price == Min(low, t.price);
  }

  lemma {:induction false} ClosesGrow(ts: seq<Tick>, t: Tick, close: real, last: nat)
    requires ClosesAt(ts, close, last)
    ensures ClosesAt(ts + [t], if t.timestamp > last then t.price else close, if t.timestamp > last then t.timestamp else last)
  {
    var i :| IsLast(ts, i) && ts[i].price == close && ts[i].timestamp == last;
    var us := ts + [t];
    assert IsLast(us, if t.timestamp > last then |ts| else i);
  }

  lemma {:induction false} UpdateSummarizes(b: Bucket, ts: seq<Tick>, t: Tick)
    requires Summarizes(b, ts) && SignatureOf(t) !in b.seen
    ensures Summarizes(Update(b, t), ts + [t])
  {
    hide Spans, ClosesAt, SignatureOf, Max, Min;
    var us := ts + [t];
    assert us[..|us| - 1] == ts && us[0] == ts[0];
    SpansGrow(ts, t, b.low, b.high);
    ClosesGrow(ts, t, b.close, b.last);
    ClosesSomewhere(us, Update(b, t).close, Update(b, t).last);
  }

  lemma ClosesSomewhere(ts: seq<Tick>, close: real, last: nat)
    requires ClosesAt(ts, close, last)
    ensures exists i :: IsLast(ts, i) && ts[i].price == close
  {
  }

  /** Folding the builder over distinct ticks gives their candle. */
  lemma {:induction false} BuildIsBatch(tf: Timeframe, ts: seq<Tick>)
    requires ts != [] && AllDistinct(ts)
    ensures Summarizes(Build(tf, ts), ts)
  {
    hide Summarizes, Create, Update;
    if |ts| == 1 {
      CreateSummarizes(tf, ts[0]);
      assert ts == [ts[0]];
    } else {
      var prefix := ts[..|ts| - 1];
      BuildIsBatch(tf, prefix);
      BuildSeen(tf, prefix, SignatureOf(ts[|ts| - 1]));
      assert ts == prefix + [ts[|ts| - 1]];
      UpdateSummarizes(Build(tf, prefix), prefix, ts[|ts| - 1]);
    }
  }

  /** Such a candle passes the candle's own validation: open and close within low and high. */
  lemma CandleIsValid(c: Candle, ts: seq<Tick>)
    requires IsCandleOf(c, ts)
    ensures c.low <= c.open <= c.high && c.low <= c.close <= c.high && c.trades >= 1
  {
  }

  // ---- counting ---------------------------------------------------------------------------

  function Holds(bs: seq<Bucket>, k: Key): nat {
    if bs == [] then 0 else Holds(bs[..|bs| - 1], k) + if bs[|bs| - 1].key == k then 1 else 0
  }

  function Count(es: seq<Event>, kind: Kind, k: Key): nat {
    if es == [] then 0
    else Count(es[..|es| - 1], kind, k) + if es[|es| - 1].kind == kind && es[|es| - 1].candle.key == k then 1 else 0
  }

  lemma {:induction false} CountOfAppend(es: seq<Event>, fs: seq<Event>, kind: Kind, k: Key)
    ensures Count(es + fs, kind, k) == Count(es, kind, k) + Count(fs, kind, k)
  {
    if fs == [] {
      assert es + fs == es;
    } else {
      assert (es + fs)[..|es + fs| - 1] == es + fs[..|fs| - 1];
      CountOfAppend(es, fs[..|fs| - 1], kind, k);
    }
  }

  lemma CountOfOne(e: Event, kind: Kind, k: Key)
    ensures Count([e], kind, k) == if e.kind == kind && e.candle.key == k then 1 else 0
  {
    assert [e][..0] == [];
    assert Count([e][..0], kind, k) == 0;
  }

  lemma ClosedEventsOfAppend(bs: seq<Bucket>, b: Bucket)
    ensures ClosedEvents(bs + [b]) == ClosedEvents(bs) + [Event(CandleClosed, Finalize(b))]
  {
    assert (bs + [b])[..|bs|] == bs;
  }

  lemma {:induction false} ClosingCounts(bs: seq<Bucket>, r: Reason, k: Key)
    ensures Holds(Kept(bs, r), k) + Count(ClosedEvents(Shut(bs, r)), CandleClosed, k) == Holds(bs, k)
    ensures Count(ClosedEvents(Shut(bs, r)), CandleOpened, k) == 0
    ensures Count(ClosedEvents(Shut(bs, r)), CandleUpdated, k) == 0
  {
    if bs == [] {
      NothingCounts(bs, r, k);
    } else {
      hide Ends, ClosedEvents, Count;
      var prefix := bs[..|bs| - 1];
      var b := bs[|bs| - 1];
      ClosingCounts(prefix, r, k);
      if Ends(b, r) {
        var shut := Shut(prefix, r);
        var now := b.(closed := true);
        ClosedEventsOfAppend(shut, now);
        AppendedCounts(ClosedEvents(shut), Event(CandleClosed, Finalize(now)), k);
        assert Kept(bs, r) == Kept(prefix, r);
      } else {
        assert Shut(bs, r) == Shut(prefix, r);
        HoldsOfAppend(Kept(prefix, r), b, k);
      }
    }
  }

  lemma NothingCounts(bs: seq<Bucket>, r: Reason, k: Key)
    requires bs == []
    ensures Kept(bs, r) == [] && Shut(bs, r) == [] && Holds(Kept(bs, r), k) == Holds(bs, k) == 0
    ensures forall kind :: Count(ClosedEvents(Shut(bs, r)), kind, k) == 0
  {
    assert Kept(bs, r) == [] && Shut(bs, r) == [];
  }

  lemma {:induction false} ClosingContents(bs: seq<Bucket>, r: Reason)
    ensures forall b | b in Kept(bs, r) :: b in bs && !Ends(b, r)
    ensures forall e | e in ClosedEvents(Shut(bs, r)) ::
              e.kind.CandleClosed? && exists b :: b in bs && Ends(b, r) && e.candle == Finalize(b)
  {
    hide Ends;
    if bs != [] {
      var prefix := bs[..|bs| - 1];
      var last := bs[|bs| - 1];
      ClosingContents(prefix, r);
      assert bs == prefix + [last];
      if Ends(last, r) {
        var shut := Shut(prefix, r);
        assert (shut + [last.(closed := true)])[..|shut|] == shut;
        forall e | e in ClosedEvents(Shut(bs, r))
          ensures e.kind.CandleClosed? && exists b :: b in bs && Ends(b, r) && e.candle == Finalize(b)
        {
          if e in ClosedEvents(shut) {
            var b :| b in prefix && Ends(b, r) && e.candle == Finalize(b);
            assert b in bs;
          } else {
            assert last in bs && e.candle == Finalize(last);
          }
        }
      } else {
        assert Shut(bs, r) == Shut(prefix, r);
        forall e | e in ClosedEvents(Shut(bs, r))
          ensures e.kind.CandleClosed? && exists b :: b in bs && Ends(b, r) && e.candle == Finalize(b)
        {
          var b :| b in prefix && Ends(b, r) && e.candle == Finalize(b);
          assert b in bs;
        }
      }
    } else {
      assert Kept(bs, r) == [] && Shut(bs, r) == [] && ClosedEvents([]) == [];
    }
  }

  lemma {:induction false} HoldsIsMembership(bs: seq<Bucket>, k: Key)
    ensures Holds(bs, k) > 0 <==> exists b :: b in bs && b.key == k
  {
    if bs != [] {
      var prefix := bs[..|bs| - 1];
      var last := bs[|bs| - 1];
      HoldsIsMembership(prefix, k);
      assert bs == prefix + [last];
      if b :| b in prefix && b.key == k {
        assert b in bs;
      }
      if last.key == k {
        assert last in bs;
      }
    }
  }

  lemma {:induction false} NothingDue(bs: seq<Bucket>, r: Reason)
    requires forall b | b in bs :: !Ends(b, r)
    ensures Kept(bs, r) == bs && Shut(bs, r) == []
  {
    hide Ends, Kept, Shut;
    if bs == [] {
      NoneKept(bs, r);
    } else {
      var prefix := bs[..|bs| - 1];
      assert bs[|bs| - 1] in bs;
      assert forall b | b in prefix :: b in bs;
      NothingDue(prefix, r);
      LastKept(bs, r);
      assert bs == prefix + [bs[|bs| - 1]];
    }
  }

  lemma NoneKept(bs: seq<Bucket>, r: Reason)
    requires bs == []
    ensures Kept(bs, r) == [] && Shut(bs, r) == []
  {
  }

  lemma LastKept(bs: seq<Bucket>, r: Reason)
    requires bs != [] && !Ends(bs[|bs| - 1], r)
    ensures Kept(bs, r) == Kept(bs[..|bs| - 1], r) + [bs[|bs| - 1]] && Shut(bs, r) == Shut(bs[..|bs| - 1], r)
  {
    hide Ends;
  }

  lemma AppendedCounts(es: seq<Event>, event: Event, k: Key)
    ensures forall kind :: Count(es + [event], kind, k) == Count(es, kind, k) + if event.kind == kind && event.candle.key == k then 1 else 0
  {
    forall kind ensures Count(es + [event], kind, k) == Count(es, kind, k) + if event.kind == kind && event.candle.key == k then 1 else 0 {
      CountOfAppend(es, [event], kind, k);
      CountOfOne(event, kind, k);
    }
  }

  lemma HoldsOfAppend(bs: seq<Bucket>, b: Bucket, k: Key)
    ensures Holds(bs + [b], k) == Holds(bs, k) + if b.key == k then 1 else 0
  {
    assert (bs + [b])[..|bs|] == bs;
  }

  lemma {:induction false} HoldsOfReplaced(bs: seq<Bucket>, i: nat, b: Bucket, k: Key)
    requires i < |bs| && b.key == bs[i].key
    ensures Holds(bs[i := b], k) == Holds(bs, k)
    decreases |bs|
  {
    var n := |bs| - 1;
    if i < n {
      assert bs[i := b][..n] == bs[..n][i := b];
      HoldsOfReplaced(bs[..n], i, b, k);
    } else {
      assert bs[i := b][..n] == bs[..n];
    }
  }

  lemma {:induction false} SoleHolder(bs: seq<Bucket>, i: nat, j: nat)
    requires i < j < |bs| && bs[i].key == bs[j].key
    ensures Holds(bs, bs[i].key) >= 2
    decreases |bs|
  {
    var prefix := bs[..|bs| - 1];
    if j < |bs| - 1 {
      SoleHolder(prefix, i, j);
    } else {
      HoldsIsMembership(prefix, bs[i].key);
      assert prefix[i] in prefix;
    }
  }

  lemma UpdateFacts(b: Bucket, t: Tick)
    ensures Update(b, t).key == b.key && Update(b, t).closed == b.closed
    ensures SignatureOf(t) !in b.seen ==> Update(b, t).trades == b.trades + 1
  {
  }

  lemma BuildMore(tf: Timeframe, ts: seq<Tick>, t: Tick)
    requires ts != []
    ensures Build(tf, ts + [t]) == Update(Build(tf, ts), t)
  {
    hide Update, Create;
    assert (ts + [t])[..|ts|] == ts;
  }

  lemma {:induction false} BuildTrades(tf: Timeframe, ts: seq<Tick>)
    requires ts != []
    ensures Build(tf, ts).trades >= 1
  {
    if |ts| > 1 {
      BuildTrades(tf, ts[..|ts| - 1]);
    }
  }

  lemma OneEvent(b: Bucket)
    ensures EventsFor([] + [b]) == [EventFor(b)]
  {
    assert ([] + [b])[..0] == [] && EventsFor([]) == [];
  }

  /** Besides what it opens or updates, which is open, a tick in session reports as closed exactly the buckets
      whose end it has reached. */
  lemma IngestReportsClosings(tf: Timeframe, bs: seq<Bucket>, t: Tick, s: Option<Session>, b: Bucket)
    requires InSession(t, s) && forall i | 0 <= i < |bs| :: !bs[i].closed
    ensures b in Ingest(tf, bs, t, s).1 && b.closed <==>
            exists i | 0 <= i < |bs| :: bs[i].end <= t.timestamp && b == bs[i].(closed := true)
  {
    hide Create, BucketEnd, Align, InSession;
    ShutAre(bs, EndPassed(t.timestamp), b);
    PlacedIsOpen(tf, Kept(bs, EndPassed(t.timestamp)), t, b);
  }

  lemma PlacedIsOpen(tf: Timeframe, open: seq<Bucket>, t: Tick, b: Bucket)
    ensures b in Place(tf, open, t).1 ==> !b.closed
  {
  }

  lemma {:induction false} ShutAre(bs: seq<Bucket>, r: Reason, b: Bucket)
    ensures b in Shut(bs, r) <==> exists i | 0 <= i < |bs| :: Ends(bs[i], r) && b == bs[i].(closed := true)
  {
    hide Ends;
    if bs != [] {
      var n := |bs| - 1;
      ShutAre(bs[..n], r, b);
      if b in Shut(bs[..n], r) {
        var i :| 0 <= i < n && Ends(bs[..n][i], r) && b == bs[..n][i].(closed := true);
        assert Ends(bs[i], r);
      }
      if exists i | 0 <= i < |bs| :: Ends(bs[i], r) && b == bs[i].(closed := true) {
        var i :| 0 <= i < |bs| && Ends(bs[i], r) && b == bs[i].(closed := true);
        if i < n {
          assert Ends(bs[..n][i], r);
        }
      }
    }
  }
}
