/** The aggregation objects: open states updated in place, the aggregator and the engine. */
module AggregationEngines {
  import opened Common
  import opened Calendar
  import opened Aggregation

  class AggregationState {
    const key: Key
    const end: nat
    const open: real
    var high: real
    var low: real
    var close: real
    var volume: real
    var trades: nat
    var last: nat
    var seen: set<Signature>
    var closed: bool

    function View(): Bucket
      reads this
    {
      Bucket(key, end, open, high, low, close, volume, trades, last, seen, closed)
    }

    constructor (tf: Timeframe, t: Tick)
      ensures View() == Create(tf, t)
    {
      key := KeyOf(tf, t);
      end := BucketEnd(tf, Align(tf, t.timestamp));
      open, high, low, close := t.price, t.price, t.price, t.price;
      volume, trades, last := Volume(t), 1, t.timestamp;
      seen, closed := {SignatureOf(t)}, false;
    }

    method Update(t: Tick)
      modifies this
      ensures View() == Aggregation.Update(old(View()), t)
    {
      hide SignatureOf, Volume;
      if SignatureOf(t) in seen {
        return;
      }
      high := Max(high, t.price);
      low := Min(low, t.price);
      if t.timestamp > last {
        close := t.price;
        last := t.timestamp;
      }
      volume := volume + Volume(t);
      trades := trades + 1;
      seen := seen + {SignatureOf(t)};
    }

    method MarkClosed()
      modifies this
      ensures View() == old(View()).(closed := true)
    {
      closed := true;
    }
  }

  function Views(ss: seq<AggregationState>): (r: seq<Bucket>)
    reads ss
    ensures |r| == |ss|
    ensures forall i | 0 <= i < |ss| :: r[i] == ss[i].View()
  {
    if ss == [] then [] else Views(ss[..|ss| - 1]) + [ss[|ss| - 1].View()]
  }

  lemma ViewsOfAppend(ss: seq<AggregationState>, s: AggregationState)
    ensures Views(ss + [s]) == Views(ss) + [s.View()]
  {
    hide AggregationState.View;
    assert (ss + [s])[..|ss|] == ss;
  }

  lemma ViewOfOne(s: AggregationState)
    ensures Views([s]) == [s.View()]
  {
  }

  lemma ViewsOfNone()
    ensures Views([]) == []
  {
  }

  lemma {:induction false} ViewsOfBoth(ss: seq<AggregationState>, us: seq<AggregationState>)
    ensures Views(ss + us) == Views(ss) + Views(us)
  {
    hide AggregationState.View;
  }

  predicate NoRepeats(ss: seq<AggregationState>) {
    forall i, j | 0 <= i < j < |ss| :: ss[i] != ss[j]
  }

  lemma KeptStep(bs: seq<Bucket>, i: nat, r: Reason)
    requires i < |bs|
    ensures Kept(bs[..i + 1], r) == if Ends(bs[i], r) then Kept(bs[..i], r) else Kept(bs[..i], r) + [bs[i]]
    ensures Shut(bs[..i + 1], r) == if Ends(bs[i], r) then Shut(bs[..i], r) + [bs[i].(closed := true)] else Shut(bs[..i], r)
  {
    hide Ends;
    assert bs[..i + 1][..i] == bs[..i];
  }

  lemma NothingYet(bs: seq<Bucket>, r: Reason)
    ensures Kept(bs[..0], r) == [] && Shut(bs[..0], r) == []
  {
  }

  /** The states sorted so far: each of the first i is kept or closed, none is both. */
  predicate Sorted(all: seq<AggregationState>, i: nat, kept: seq<AggregationState>, closed: seq<AggregationState>)
    requires i <= |all|
  {
    && NoRepeats(kept)
    && (forall s :: s in kept ==> s in all[..i] && s !in closed)
    && (forall s :: s in closed ==> s in all[..i])
  }

  lemma StartSorting(all: seq<AggregationState>)
    ensures Sorted(all, 0, [], [])
  {
  }

  lemma SortOne(all: seq<AggregationState>, i: nat, kept: seq<AggregationState>, closed: seq<AggregationState>)
    requires NoRepeats(all) && i < |all| && Sorted(all, i, kept, closed)
    ensures all[i] !in kept && all[i] !in closed && forall j | i < j < |all| :: all[j] != all[i]
    ensures Sorted(all, i + 1, kept + [all[i]], closed) && Sorted(all, i + 1, kept, closed + [all[i]])
  {
    assert all[..i + 1] == all[..i] + [all[i]];
    assert all[i] !in all[..i];
  }

  lemma SortedAll(all: seq<AggregationState>, kept: seq<AggregationState>, closed: seq<AggregationState>)
    requires Sorted(all, |all|, kept, closed)
    ensures NoRepeats(kept) && (forall s :: s in kept ==> s in all) && (forall s :: s in closed ==> s in all && s !in kept)
  {
  }

  class TickAggregator {
    const timeframe: Timeframe
    var states: seq<AggregationState>

    constructor (tf: Timeframe)
      ensures timeframe == tf && states == []
    {
      timeframe, states := tf, [];
    }

    predicate Valid()
      reads this
    {
      NoRepeats(states)
    }

    /** Closes and drops the open states the reason ends, in order. */
    method Close(r: Reason) returns (closed: seq<AggregationState>)
      requires Valid()
      modifies this`states, states
      ensures Valid() && (forall s :: s in states ==> s in old(states))
      ensures forall s :: s in closed ==> s in old(states) && s !in states
      ensures Views(states) == Kept(old(Views(states)), r)
      ensures Views(closed) == Shut(old(Views(states)), r)
    {
      hide Ends, Kept, Shut, Views, AggregationState.View, Sorted, NoRepeats;
      var all := states;
      assert NoRepeats(all);
      ghost var before := Views(all);
      var kept: seq<AggregationState> := [];
      closed := [];
      var i := 0;
      NothingYet(before, r);
      StartSorting(all);
      while i < |all|
        invariant 0 <= i <= |all| && states == all
        invariant forall j | i <= j < |all| :: all[j].View() == before[j]
        invariant Sorted(all, i, kept, closed)
        invariant Views(kept) == Kept(before[..i], r)
        invariant Views(closed) == Shut(before[..i], r)
      {
        KeptStep(before, i, r);
        var state := all[i];
        SortOne(all, i, kept, closed);
        if Ends(state.View(), r) {
          ghost var shut := Views(closed);
          state.MarkClosed();
          assert Views(closed) == shut;
          ViewsOfAppend(closed, state);
          closed := closed + [state];
        } else {
          ViewsOfAppend(kept, state);
          kept := kept + [state];
        }
        i := i + 1;
      }
      assert before[..|all|] == before;
      SortedAll(all, kept, closed);
      states := kept;
    }

    method ClosePending(at: nat) returns (closed: seq<AggregationState>)
      requires Valid()
      modifies this`states, states
      ensures Valid() && (forall s :: s in states ==> s in old(states))
      ensures forall s :: s in closed ==> s in old(states) && s !in states
      ensures Views(states) == Kept(old(Views(states)), EndPassed(at))
      ensures Views(closed) == Shut(old(Views(states)), EndPassed(at))
    {
      closed := Close(EndPassed(at));
    }

    method IngestTick(t: Tick, session: Option<Session>) returns (reported: seq<AggregationState>)
      requires Valid()
      modifies this`states, states
      ensures Valid() && (forall s :: s in states ==> s in old(states) || fresh(s))
      ensures forall s :: s in reported ==> s in old(states) || fresh(s)
      ensures (Views(states), Views(reported)) == Ingest(timeframe, old(Views(states)), t, session)
    {
      hide InSession, Kept, Shut, Ends, Views, Aggregation.Place, NoRepeats;
      if !InSession(t, session) {
        return [];
      }
      var closed := ClosePending(t.timestamp);
      ghost var open, shut := states, Views(closed);
      assert forall i | 0 <= i < |open| :: open[i] in old(states);
      assert forall i | 0 <= i < |closed| :: closed[i] !in open;
      var placed := Place(t);
      assert Views(closed) == shut;
      ViewsOfBoth(closed, placed);
      reported := closed + placed;
    }

    method Place(t: Tick) returns (placed: seq<AggregationState>)
      requires Valid()
      modifies this`states, states
      ensures Valid() && (forall s :: s in states ==> s in old(states) || fresh(s))
      ensures forall s :: s in placed ==> s in old(states) || fresh(s)
      ensures (Views(states), Views(placed)) == Aggregation.Place(timeframe, old(Views(states)), t)
    {
      hide KeyOf, SignatureOf, Create, Aggregation.Update, Views, Position;
      ghost var open := Views(states);
      var at := Position(Views(states), KeyOf(timeframe, t));
      match at {
        case None =>
          var state := new AggregationState(timeframe, t);
          ViewsOfAppend(states, state);
          ViewOfOne(state);
          states := states + [state];
          placed := [state];
        case Some(i) =>
          var state := states[i];
          if SignatureOf(t) in state.seen || state.closed {
            ViewsOfNone();
            return [];
          }
          state.Update(t);
          assert forall j | 0 <= j < |states| && j != i :: states[j] != state;
          assert Views(states) == open[i := Aggregation.Update(open[i], t)];
          ViewOfOne(state);
          placed := [state];
      }
    }

    method CloseSession(session: Session, at: nat) returns (closed: seq<AggregationState>)
      requires Valid()
      modifies this`states, states
      ensures Valid() && (forall s :: s in states ==> s in old(states))
      ensures Views(states) == Kept(old(Views(states)), SessionOver(session.exchange, at))
      ensures Views(closed) == Shut(old(Views(states)), SessionOver(session.exchange, at))
    {
      closed := Close(SessionOver(session.exchange, at));
    }
  }

  class AggregationEngine {
    const aggregator: TickAggregator
    var published: seq<Event>

    constructor (tf: Timeframe)
      ensures aggregator.timeframe == tf && fresh(aggregator) && aggregator.Valid()
      ensures View() == IDLE
    {
      var a := new TickAggregator(tf);
      aggregator, published := a, [];
    }

    function View(): Engine
      reads this, aggregator, aggregator.states
    {
      Engine(Views(aggregator.states), published)
    }

    method PublishClosed(closed: seq<AggregationState>)
      modifies this`published
      ensures published == old(published) + ClosedEvents(Views(closed))
    {
      hide Views, Finalize, AggregationState.View;
      var i := 0;
      while i < |closed|
        invariant 0 <= i <= |closed|
        invariant published == old(published) + ClosedEvents(Views(closed[..i]))
      {
        assert closed[..i + 1][..i] == closed[..i];
        published := published + [Event(CandleClosed, Finalize(closed[i].View()))];
        assert Views(closed[..i + 1]) == Views(closed[..i]) + [closed[i].View()];
        i := i + 1;
      }
      assert closed[..|closed|] == closed;
    }

    method ProcessTick(t: Tick, session: Option<Session>)
      requires aggregator.Valid()
      modifies this, aggregator, aggregator.states
      ensures aggregator.Valid()
      ensures View() == Aggregation.ProcessTick(aggregator.timeframe, old(View()), t, session)
    {
      hide Ingest, Kept, Shut, ClosedEvents, EventsFor, Views, AggregationState.View;
      var closed := aggregator.ClosePending(t.timestamp);
      PublishClosed(closed);
      ghost var due := View();
      assert forall i | 0 <= i < |aggregator.states| :: aggregator.states[i] in old(aggregator.states);
      var reported := aggregator.IngestTick(t, session);
      PublishReported(reported);
      assert due == CloseBy(old(View()), EndPassed(t.timestamp));
    }

    /** Each reported state is published for what it is: closed, just opened, or updated. */
    method PublishReported(reported: seq<AggregationState>)
      modifies this`published
      ensures published == old(published) + EventsFor(Views(reported))
    {
      hide Views, Finalize;
      var i := 0;
      while i < |reported|
        invariant 0 <= i <= |reported|
        invariant published == old(published) + EventsFor(Views(reported[..i]))
      {
        assert reported[..i + 1][..i] == reported[..i];
        var state := reported[i];
        var kind := if state.closed then CandleClosed else if state.trades == 1 then CandleOpened else CandleUpdated;
        published := published + [Event(kind, Finalize(state.View()))];
        assert Views(reported[..i + 1]) == Views(reported[..i]) + [state.View()];
        i := i + 1;
      }
      assert reported[..|reported|] == reported;
    }

    method ClosePendingCandles(at: nat)
      requires aggregator.Valid()
      modifies this, aggregator, aggregator.states
      ensures aggregator.Valid()
      ensures View() == CloseBy(old(View()), EndPassed(at))
    {
      hide Kept, Shut, ClosedEvents, Views;
      var closed := aggregator.ClosePending(at);
      PublishClosed(closed);
    }

    method CloseSession(session: Session, at: nat)
      requires aggregator.Valid()
      modifies this, aggregator, aggregator.states
      ensures aggregator.Valid()
      ensures View() == CloseBy(old(View()), SessionOver(session.exchange, at))
    {
      hide Kept, Shut, ClosedEvents, Views;
      var closed := aggregator.CloseSession(session, at);
      PublishClosed(closed);
    }
  }
}
