/** The breakout from the previous session's range, on bars and on bricks. */
module PreviousDayBreakout {
  import opened Common
  import opened PlainValue
  import opened RenkoModels
  import opened RenkoCodec
  import opened RenkoProviders
  import opened RenkoEngine
  import opened Backtest
  import opened Strategies

  datatype MarketBar = MarketBar(day: int, high: real, low: real, close: real)

  datatype Range = Range(day: int, high: real, low: real)

  datatype BreakState = BreakState(buffer: real, previous: Option<Range>, current: Option<Range>, stance: Stance)

  function Untouched(buffer: real): BreakState {
    BreakState(buffer, None, None, Flat)
  }

  /** The range grows within a session; a bar of another day ends it. */
  function Turned(s: BreakState, bar: MarketBar): BreakState {
    match s.current
    case Some(r) =>
      if r.day == bar.day then s.(current := Some(Range(r.day, Max(r.high, bar.high), Min(r.low, bar.low))))
      else s.(previous := s.current, current := Some(Range(bar.day, bar.high, bar.low)))
    case None => s.(current := Some(Range(bar.day, bar.high, bar.low)))
  }

  const DAY_HIGH: Key := Other("previous_day_high")
  const DAY_LOW: Key := Other("previous_day_low")

  function NumberOf(v: Value): Option<real> {
    match v
    case Num(x) => Some(x)
    case Int(n) => Some(Real(n))
    case _ => None
  }

  /** A brick brings the levels along in its metadata, or leaves them. */
  function Informed(s: BreakState, b: Brick): BreakState {
    var high, low := NumberOf(Field(b.metadata, DAY_HIGH, Null)), NumberOf(Field(b.metadata, DAY_LOW, Null));
    if high.Some? && low.Some? then s.(previous := Some(Range(b.createdAt, high.value, low.value))) else s
  }

  function Answer(s: BreakState, price: real): (BreakState, Signal) {
    if s.previous.None? then (s, HoldSignal)
    else
      var (stance, signal) := Decide(s.stance, price, s.previous.value.high + s.buffer, s.previous.value.low - s.buffer);
      (s.(stance := stance), signal)
  }

  datatype Observation = SeenBar(bar: MarketBar) | SeenBrick(brick: Brick)

  function Observe(s: BreakState, o: Observation): (BreakState, Signal) {
    match o
    case SeenBar(bar) => Answer(Turned(s, bar), bar.close)
    case SeenBrick(b) => Answer(Informed(s, b), b.close)
  }

  class PdhPdlBreakoutStrategy {
    const buffer: real
    var previous: Option<Range>
    var current: Option<Range>
    var stance: Stance

    function View(): BreakState
      reads this
    {
      BreakState(buffer, previous, current, stance)
    }

    constructor (buffer: real)
      requires buffer >= 0.0
      ensures View() == Untouched(buffer)
    {
      this.buffer, previous, current, stance := buffer, None, None, Flat;
    }

    method OnMarketData(bar: MarketBar) returns (signal: Signal)
      modifies this
      ensures (View(), signal) == Observe(old(View()), SeenBar(bar))
      ensures Answers(old(stance), signal, stance)
    {
      if current.None? {
        current := Some(Range(bar.day, bar.high, bar.low));
      } else if current.value.day == bar.day {
        current := Some(Range(bar.day, Max(current.value.high, bar.high), Min(current.value.low, bar.low)));
      } else {
        previous, current := current, Some(Range(bar.day, bar.high, bar.low));
      }
      signal := Break(bar.close);
    }

    method OnBrick(b: Brick) returns (signal: Signal)
      modifies this
      ensures (View(), signal) == Observe(old(View()), SeenBrick(b))
      ensures Answers(old(stance), signal, stance)
    {
      var high, low := NumberOf(Field(b.metadata, DAY_HIGH, Null)), NumberOf(Field(b.metadata, DAY_LOW, Null));
      if high.Some? && low.Some? {
        previous := Some(Range(b.createdAt, high.value, low.value));
      }
      signal := Break(b.close);
    }

    method Break(price: real) returns (signal: Signal)
      modifies this`stance
      ensures (View(), signal) == Answer(old(View()), price)
      ensures Answers(old(stance), signal, stance)
    {
      signal := HoldSignal;
      if previous.None? {
        return;
      }
      if price > previous.value.high + buffer {
        if stance == Short {
          stance, signal := Flat, ExitSignal;
        } else if stance == Flat {
          stance, signal := Long, BuySignal;
        }
      } else if price < previous.value.low - buffer {
        if stance == Long {
          stance, signal := Flat, ExitSignal;
        } else if stance == Flat {
          stance, signal := Short, SellSignal;
        }
      }
    }
  }

  // ---- runs ------------------------------------------------------------------------------------

  function BreakRun(buffer: real, os: seq<Observation>): BreakState {
    if os == [] then Untouched(buffer) else Observe(BreakRun(buffer, os[..|os| - 1]), os[|os| - 1]).0
  }

  function BreakTrace(buffer: real, os: seq<Observation>): Trace {
    if os == [] then Trace([Flat], [])
    else
      var before := BreakTrace(buffer, os[..|os| - 1]);
      var (s', signal) := Observe(BreakRun(buffer, os[..|os| - 1]), os[|os| - 1]);
      Trace(before.stances + [s'.stance], before.signals + [signal])
  }

  lemma AnswerIsDisciplined(s: BreakState, price: real)
    ensures Answers(s.stance, Answer(s, price).1, Answer(s, price).0.stance)
  {
  }

  lemma ObservingIsDisciplined(s: BreakState, o: Observation)
    ensures Answers(s.stance, Observe(s, o).1, Observe(s, o).0.stance)
  {
    match o
    case SeenBar(bar) => AnswerIsDisciplined(Turned(s, bar), bar.close);
    case SeenBrick(b) => AnswerIsDisciplined(Informed(s, b), b.close);
  }

  /** Over any mixture of bars and bricks it is disciplined. */
  lemma {:induction false} BreakoutIsDisciplined(buffer: real, os: seq<Observation>)
    ensures var t := BreakTrace(buffer, os);
            && Disciplined(t.stances, t.signals) && |t.signals| == |os|
            && t.stances[|os|] == BreakRun(buffer, os).stance
  {
    hide Answers, Observe;
    if os != [] {
      BreakoutIsDisciplined(buffer, os[..|os| - 1]);
      ObservingIsDisciplined(BreakRun(buffer, os[..|os| - 1]), os[|os| - 1]);
    }
  }

  // ---- the levels are the previous session's -----------------------------------------------------

  function Watched(bars: seq<MarketBar>): (os: seq<Observation>)
    ensures |os| == |bars|
  {
    seq(|bars|, i requires 0 <= i < |bars| => SeenBar(bars[i]))
  }

  /** Bars i to j are one session: of one day, and no neighbour is of that day. */
  predicate IsSession(bars: seq<MarketBar>, i: int, j: int) {
    && 0 <= i < j <= |bars|
    && (forall m | i <= m < j :: bars[m].day == bars[i].day)
    && (i > 0 ==> bars[i - 1].day != bars[i].day)
    && (j < |bars| ==> bars[j].day != bars[i].day)
  }

  ghost predicate IsRangeOf(r: Range, bars: seq<MarketBar>) {
    && (forall m | 0 <= m < |bars| :: bars[m].day == r.day && bars[m].high <= r.high && r.low <= bars[m].low)
    && (exists m :: 0 <= m < |bars| && bars[m].high == r.high)
    && (exists m :: 0 <= m < |bars| && bars[m].low == r.low)
  }

  /** The ranges kept are those of the session starting at j and of the one from i to j before it. */
  ghost predicate Follows(s: BreakState, bars: seq<MarketBar>, i: int, j: int) {
    && IsSession(bars, j, |bars|)
    && s.current.Some? && IsRangeOf(s.current.value, bars[j..])
    && (j == 0 <==> s.previous.None?)
    && (j > 0 ==> IsSession(bars, i, j) && IsRangeOf(s.previous.value, bars[i..j]))
  }

  lemma RangeGrows(r: Range, bars: seq<MarketBar>, bar: MarketBar)
    requires IsRangeOf(r, bars) && bar.day == r.day
    ensures IsRangeOf(Range(r.day, Max(r.high, bar.high), Min(r.low, bar.low)), bars + [bar])
  {
    var top :| 0 <= top < |bars| && bars[top].high == r.high;
    var bottom :| 0 <= bottom < |bars| && bars[bottom].low == r.low;
    var all := bars + [bar];
    assert all[if bar.high > r.high then |bars| else top].high == Max(r.high, bar.high);
    assert all[if bar.low < r.low then |bars| else bottom].low == Min(r.low, bar.low);
  }

  lemma RangeOfOne(bar: MarketBar)
    ensures IsRangeOf(Range(bar.day, bar.high, bar.low), [bar])
  {
    assert [bar][0] == bar;
  }

  /** One more bar of the day, or the first of another. */
  lemma TurnFollows(s: BreakState, bars: seq<MarketBar>, bar: MarketBar, i: int, j: int) returns (i': int, j': int)
    requires Follows(s, bars, i, j)
    ensures Follows(Turned(s, bar), bars + [bar], i', j')
  {
    hide IsRangeOf;
    var all := bars + [bar];
    DayOfRange(s.current.value, bars[j..]);
    if bar.day == s.current.value.day {
      i', j' := i, j;
      RangeGrows(s.current.value, bars[j..], bar);
      assert all[j..] == bars[j..] + [bar] && (j > 0 ==> all[i..j] == bars[i..j]);
    } else {
      i', j' := j, |bars|;
      RangeOfOne(bar);
      assert all[|bars|..] == [bar] && all[j..|bars|] == bars[j..];
    }
  }

  lemma DayOfRange(r: Range, bars: seq<MarketBar>)
    requires IsRangeOf(r, bars)
    ensures bars != [] && bars[0].day == r.day
  {
  }

  lemma FirstFollows(s: BreakState, bar: MarketBar)
    requires s.previous.None? && s.current.None?
    ensures Follows(Turned(s, bar), [bar], 0, 0)
  {
    RangeOfOne(bar);
    assert [bar][0..] == [bar];
  }

  lemma AnswerKeepsRanges(s: BreakState, price: real)
    ensures Answer(s, price).0 == s.(stance := Answer(s, price).0.stance)
  {
  }

  lemma StanceAside(s: BreakState, t: BreakState, bars: seq<MarketBar>, i: int, j: int)
    requires Follows(s, bars, i, j) && t.previous == s.previous && t.current == s.current
    ensures Follows(t, bars, i, j)
  {
  }

  /** Over any run of bars the levels in use are the highest high and the lowest low of the session
      before the current one, and there are none in the first session. */
  lemma {:induction false} LevelsArePreviousSession(buffer: real, bars: seq<MarketBar>) returns (i: int, j: int)
    requires bars != []
    ensures Follows(BreakRun(buffer, Watched(bars)), bars, i, j)
    ensures Turned(BreakRun(buffer, Watched(bars[..|bars| - 1])), bars[|bars| - 1])
            == BreakRun(buffer, Watched(bars)).(stance := BreakRun(buffer, Watched(bars[..|bars| - 1])).stance)
  {
    hide Answer, Follows, Turned;
    var n := |bars| - 1;
    assert Watched(bars)[..n] == Watched(bars[..n]) && Watched(bars)[n] == SeenBar(bars[n]);
    assert bars == bars[..n] + [bars[n]];
    var before := BreakRun(buffer, Watched(bars[..n]));
    if n == 0 {
      i, j := 0, 0;
      FirstFollows(before, bars[n]);
    } else {
      i, j := LevelsArePreviousSession(buffer, bars[..n]);
      i, j := TurnFollows(before, bars[..n], bars[n], i, j);
    }
    var turned := Turned(before, bars[n]);
    TurnKeepsStance(before, bars[n]);
    AnswerKeepsRanges(turned, bars[n].close);
    StanceAside(turned, BreakRun(buffer, Watched(bars)), bars, i, j);
  }

  lemma TurnKeepsStance(s: BreakState, bar: MarketBar)
    ensures Turned(s, bar).stance == s.stance && Turned(s, bar).buffer == s.buffer
  {
  }

  lemma SessionsAreUnique(bars: seq<MarketBar>, i: int, k: int, j: int)
    requires IsSession(bars, i, j) && IsSession(bars, k, j)
    ensures i == k
  {
  }

  ghost predicate AboveSession(bars: seq<MarketBar>, i: int, j: int, price: real, buffer: real) {
    && IsSession(bars, i, j) && IsSession(bars, j, |bars|)
    && forall m | i <= m < j :: price > bars[m].high + buffer
  }

  ghost predicate BelowSession(bars: seq<MarketBar>, i: int, j: int, price: real, buffer: real) {
    && IsSession(bars, i, j) && IsSession(bars, j, |bars|)
    && forall m | i <= m < j :: price < bars[m].low - buffer
  }

  /** It buys exactly when it is flat and a bar closes by more than the buffer above every high of the
      session before the bar's own, and sells exactly when it is flat and one closes by more than the
      buffer below every low of it (and not above). */
  lemma {:induction false} EntersOutsideYesterday(buffer: real, bars: seq<MarketBar>, bar: MarketBar)
    ensures var s := BreakRun(buffer, Watched(bars));
            var above := exists i, j :: AboveSession(bars + [bar], i, j, bar.close, buffer);
            var below := exists i, j :: BelowSession(bars + [bar], i, j, bar.close, buffer);
            && (Observe(s, SeenBar(bar)).1 == BuySignal <==> s.stance == Flat && above)
            && (Observe(s, SeenBar(bar)).1 == SellSignal <==> s.stance == Flat && below && !above)
  {
    hide BreakRun, Follows, IsSession, Turned;
    var all := bars + [bar];
    assert all[..|all| - 1] == bars;
    var s := BreakRun(buffer, Watched(bars));
    var i, j := LevelsArePreviousSession(buffer, all);
    TurnKeepsStance(s, bar);
    RunKeepsBuffer(buffer, Watched(bars));
    var turned := Turned(s, bar);
    StanceAside(BreakRun(buffer, Watched(all)), turned, all, i, j);
    LevelsDecide(turned, all, i, j, bar.close);
  }

  /** What a number in a brick's metadata stands for. */
  ghost predicate Means(b: Brick, key: Key, level: real) {
    key in b.metadata && (b.metadata[key] == Num(level) || exists n: int :: b.metadata[key] == Int(n) && Real(n) == level)
  }

  /** A brick that brings both levels along is judged by its close against them and replaces those in use;
      one that does not leaves them, and is judged against them. */
  lemma BricksBringLevels(s: BreakState, b: Brick, high: real, low: real)
    requires if Means(b, DAY_HIGH, high) && Means(b, DAY_LOW, low) then true
             else s.previous.Some? && s.previous.value.high == high && s.previous.value.low == low
                  && ((forall x :: !Means(b, DAY_HIGH, x)) || forall x :: !Means(b, DAY_LOW, x))
    ensures var (r, answer) := Observe(s, SeenBrick(b));
            && r.previous.Some? && r.previous.value.high == high && r.previous.value.low == low && r.current == s.current
            && (answer == BuySignal <==> s.stance == Flat && b.close > high + s.buffer)
            && (answer == SellSignal <==> s.stance == Flat && b.close < low - s.buffer && b.close <= high + s.buffer)
            && (answer == ExitSignal <==>
                  || (s.stance == Short && b.close > high + s.buffer)
                  || (s.stance == Long && b.close < low - s.buffer && b.close <= high + s.buffer))
  {
    hide Means;
    var h, l := NumberOf(Field(b.metadata, DAY_HIGH, Null)), NumberOf(Field(b.metadata, DAY_LOW, Null));
    MeansOne(b, DAY_HIGH, if Means(b, DAY_HIGH, high) || h.None? then high else h.value);
    MeansOne(b, DAY_LOW, if Means(b, DAY_LOW, low) || l.None? then low else l.value);
  }

  lemma MeansOne(b: Brick, key: Key, level: real)
    ensures Means(b, key, level) <==> NumberOf(Field(b.metadata, key, Null)) == Some(level)
  {
  }

  lemma {:induction false} RunKeepsBuffer(buffer: real, os: seq<Observation>)
    ensures BreakRun(buffer, os).buffer == buffer
  {
    if os != [] {
      RunKeepsBuffer(buffer, os[..|os| - 1]);
    }
  }

  lemma LevelsDecide(s: BreakState, bars: seq<MarketBar>, i: int, j: int, price: real)
    requires Follows(s, bars, i, j)
    ensures var above := exists k, l :: AboveSession(bars, k, l, price, s.buffer);
            var below := exists k, l :: BelowSession(bars, k, l, price, s.buffer);
            && (Answer(s, price).1 == BuySignal <==> s.stance == Flat && above)
            && (Answer(s, price).1 == SellSignal <==> s.stance == Flat && below && !above)
  {
    hide IsSession, AboveSession, BelowSession;
    UpperLevel(s, bars, i, j, price);
    LowerLevel(s, bars, i, j, price);
  }

  lemma UpperLevel(s: BreakState, bars: seq<MarketBar>, i: int, j: int, price: real)
    requires Follows(s, bars, i, j)
    ensures (exists k, l :: AboveSession(bars, k, l, price, s.buffer)) <==>
            s.previous.Some? && price > s.previous.value.high + s.buffer
  {
    hide IsSession;
    SessionStarts(bars, j, |bars|);
    if s.previous.Some? && price > s.previous.value.high + s.buffer {
      SessionStarts(bars, i, j);
      forall m | i <= m < j ensures price > bars[m].high + s.buffer {
        assert bars[i..j][m - i] == bars[m];
      }
      assert AboveSession(bars, i, j, price, s.buffer);
    }
    if k, l :| AboveSession(bars, k, l, price, s.buffer) {
      SessionsAreUnique(bars, l, j, |bars|);
      SessionStarts(bars, k, l);
      SessionsAreUnique(bars, k, i, j);
      var top :| 0 <= top < j - i && bars[i..j][top].high == s.previous.value.high;
      assert price > bars[i + top].high + s.buffer;
    }
  }

  lemma LowerLevel(s: BreakState, bars: seq<MarketBar>, i: int, j: int, price: real)
    requires Follows(s, bars, i, j)
    ensures (exists k, l :: BelowSession(bars, k, l, price, s.buffer)) <==>
            s.previous.Some? && price < s.previous.value.low - s.buffer
  {
    hide IsSession;
    SessionStarts(bars, j, |bars|);
    if s.previous.Some? && price < s.previous.value.low - s.buffer {
      SessionStarts(bars, i, j);
      forall m | i <= m < j ensures price < bars[m].low - s.buffer {
        assert bars[i..j][m - i] == bars[m];
      }
      assert BelowSession(bars, i, j, price, s.buffer);
    }
    if k, l :| BelowSession(bars, k, l, price, s.buffer) {
      SessionsAreUnique(bars, l, j, |bars|);
      SessionStarts(bars, k, l);
      SessionsAreUnique(bars, k, i, j);
      var bottom :| 0 <= bottom < j - i && bars[i..j][bottom].low == s.previous.value.low;
      assert price < bars[i + bottom].low - s.buffer;
    }
  }

  lemma SessionStarts(bars: seq<MarketBar>, i: int, j: int)
    requires IsSession(bars, i, j)
    ensures 0 <= i < j <= |bars|
  {
  }

  // ---- on the engine's own bricks ------------------------------------------------------------------

  predicate Bare(bricks: seq<Brick>) {
    forall i | 0 <= i < |bricks| :: DAY_HIGH !in bricks[i].metadata
  }

  lemma BuiltBare(b: Builder, m: Move, c: BrickConfiguration)
    ensures DAY_HIGH !in Build(b, m, c).1.metadata
  {
    hide TraditionalId;
  }

  lemma {:induction false} AddBricksBare(e: Engine, moves: seq<Move>, size: real)
    requires e.configuration.Some? && e.state.Some? && Bare(e.history)
    ensures Bare(AddBricks(e, moves, size).history)
  {
    hide Build, StateAfter;
    if moves != [] {
      var before := AddBricks(e, moves[..|moves| - 1], size);
      AddBricksBare(e, moves[..|moves| - 1], size);
      BuiltBare(before.builder, moves[|moves| - 1], before.configuration.value);
    }
  }

  lemma ApplyMovesBare(e: Engine, moves: seq<Move>, size: real)
    requires e.configuration.Some? && e.state.Some? && Bare(e.history)
    ensures Bare(ApplyMoves(e, moves, size).history)
  {
    hide StateAfter, TraditionalId;
    AddBricksBare(e, moves, size);
  }

  lemma ChartBare(e: Engine, c: Candle)
    requires Wired(e) && e.state.Some? && Bare(e.history)
    ensures Bare(Chart(e, c).0.history)
  {
    hide Bare, PlanBricks, ApplyMoves, SelectPrice;
    if e.provider.value.Ready() {
      var size := e.provider.value.Size().value;
      var told := PublishSize(e, size);
      var price := SelectPrice(c, e.configuration.value.priceSource);
      if price.Some? && told.pendingOpen.Some? {
        var plan := PlanBricks(told.state.value, told.history == [], price.value, c.timestamp, size);
        if plan.Climb? {
          ApplyMovesBare(told, plan.moves, size);
        }
      }
    }
  }

  lemma ProcessBare(e: Engine, x: Input)
    requires Wired(e) && Bare(e.history)
    ensures Bare(Process(e, x).0.history)
  {
    hide Chart, Bare, Provider.Update, Provider.Valid;
    var started := EnsureStarted(e, x.now);
    var fed := started.provider.value.Update(x.candle);
    if fed.Some? {
      UpdateKeepsParameters(started.provider.value, x.candle);
      ChartBare(started.(provider := fed), x.candle);
    }
  }

  lemma {:induction false} SessionIsBare(e: Engine, xs: seq<Input>)
    requires Wired(e) && Bare(e.history)
    ensures Bare(RenkoEngine.Run(e, xs).history)
  {
    hide Process, Bare, Wired;
    if xs != [] {
      SessionIsBare(e, xs[..|xs| - 1]);
      ProcessBare(RenkoEngine.Run(e, xs[..|xs| - 1]), xs[|xs| - 1]);
    }
  }

  function Shown(bricks: seq<Brick>): (os: seq<Observation>)
    ensures |os| == |bricks|
  {
    seq(|bricks|, i requires 0 <= i < |bricks| => SeenBrick(bricks[i]))
  }

  lemma {:induction false} BareBricksSayNothing(buffer: real, bricks: seq<Brick>)
    requires Bare(bricks)
    ensures BreakRun(buffer, Shown(bricks)) == Untouched(buffer)
    ensures var t := BreakTrace(buffer, Shown(bricks)); |t.signals| == |bricks| && forall i | 0 <= i < |bricks| :: t.signals[i] == HoldSignal
  {
    if bricks != [] {
      var n := |bricks| - 1;
      assert Shown(bricks)[..n] == Shown(bricks[..n]) && Shown(bricks)[n] == SeenBrick(bricks[n]);
      BareBricksSayNothing(buffer, bricks[..n]);
    }
  }

  lemma SilentOnRenkoSessions(c: BrickConfiguration, bus: bool, xs: seq<Input>, buffer: real)
    requires Fresh(c, bus).Some?
    ensures var bricks := RenkoEngine.Run(Fresh(c, bus).value, xs).history;
            var t := BreakTrace(buffer, Shown(bricks));
            |t.signals| == |bricks| && forall i | 0 <= i < |bricks| :: t.signals[i] == HoldSignal
  {
    hide BuildProvider, BuilderNamed;
    BuildProviderFacts(c);
    SessionIsBare(Fresh(c, bus).value, xs);
    BareBricksSayNothing(buffer, RenkoEngine.Run(Fresh(c, bus).value, xs).history);
  }

  lemma {:induction false} BarsOrderNothing(s: Setup, starting: real, leverage: real, bars: seq<Bar>, signals: seq<Backtest.Signal>)
    requires |signals| == |bars| && forall i | 0 <= i < |signals| :: signals[i] == HoldSignal
    ensures var r := Bars(s, Begin(starting, leverage), bars, signals);
            && r.pending.None? && !r.account.position.IsOpen() && r.nextId == 0
            && r.account.orders == [] && r.account.trades == [] && r.account.cash == starting
  {
    hide Executed;
    if bars != [] {
      var n := |bars| - 1;
      BarsOrderNothing(s, starting, leverage, bars[..n], signals[..n]);
    }
  }

  function BarsOf(bricks: seq<Brick>): (bars: seq<Bar>)
    ensures |bars| == |bricks|
  {
    seq(|bricks|, i requires 0 <= i < |bricks| => Bar(bricks[i].close, bricks[i].createdAt))
  }

  /** No brick of a Renko session carries the levels: whatever the prices do, the strategy only ever
      holds, and its backtest on the bricks of any session places no order and keeps its cash. */
  lemma {:induction false} NeverTradesRenkoSessions(c: BrickConfiguration, bus: bool, xs: seq<Input>, buffer: real,
                                                    s: Setup, starting: real, leverage: real)
    requires Fresh(c, bus).Some?
    ensures var bricks := RenkoEngine.Run(Fresh(c, bus).value, xs).history;
            var t := BreakTrace(buffer, Shown(bricks));
            && |t.signals| == |bricks|
            && var r := Backtest.Outcome(s, starting, leverage, BarsOf(bricks), t.signals);
               r.account.orders == [] && r.account.trades == [] && r.account.cash == starting && r.nextId == 0
  {
    hide BuildProvider, BuilderNamed, Bars, BreakTrace;
    BuildProviderFacts(c);
    SilentOnRenkoSessions(c, bus, xs, buffer);
    var bricks := RenkoEngine.Run(Fresh(c, bus).value, xs).history;
    BarsOrderNothing(s, starting, leverage, BarsOf(bricks), BreakTrace(buffer, Shown(bricks)).signals);
  }
}
