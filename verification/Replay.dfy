/** The replay cursor: one element of lookahead over a source of ticks and one of candles. */
module Replay {
  import opened Common

  datatype State = Stopped | Running | Paused | Completed

  datatype Speed = X1 | X2 | X5 | X10 | X50 | X100

  datatype Session = Session(start: int, end: int, current: int, speed: Speed, state: State)

  function Clamp(s: Session, at: int): int {
    if at < s.start then s.start else if at > s.end then s.end else at
  }

  /** Ticks and candles carry a time and something the cursor never looks at. */
  datatype Item<T> = Item(at: int, payload: T)

  /** What a source yields from where a session stands. */
  datatype Source<!T> = Source(ticks: Session -> seq<Item<T>>, candles: Session -> seq<Item<T>>)

  datatype Event<T> =
    Started | PausedEvent | Resumed | StoppedEvent | CompletedEvent | Seeked(at: int) | SpeedChanged(speed: Speed)
  | TickReplayed(tick: Item<T>) | CandleReplayed(candle: Item<T>)

  /** One side of the cursor: the element looked ahead, and the iterator if there is one. */
  datatype Feed<T> = Feed(next: Option<Item<T>>, unread: Option<seq<Item<T>>>)
  {
    /** What is still to come. */
    function Ahead(): seq<Item<T>> {
      (if next.Some? then [next.value] else []) + (if unread.Some? then unread.value else [])
    }

    function Opened(items: seq<Item<T>>): Feed<T> {
      if unread.None? then this.(unread := Some(items)) else this
    }

    /** The looked-ahead element, else the iterator's next. */
    function Take(): (Option<Item<T>>, Feed<T>) {
      if next.Some? then (next, this.(next := None))
      else if unread.None? || unread.value == [] then (None, this)
      else (Some(unread.value[0]), this.(unread := Some(unread.value[1..])))
    }

    /** Looks ahead; true when nothing is left. */
    function Peek(): (bool, Feed<T>)
      requires unread.Some?
    {
      if next.Some? then (false, this)
      else if unread.value == [] then (true, this)
      else (false, Feed(Some(unread.value[0]), Some(unread.value[1..])))
    }
  }

  datatype Control<T> = Control(session: Session, ticks: Feed<T>, candles: Feed<T>, lastTick: Option<Item<T>>,
                                lastCandle: Option<Item<T>>, events: seq<Event<T>>)

  function NewControl<T>(s: Session): Control<T> {
    Control(s, Feed(None, None), Feed(None, None), None, None, [])
  }

  function Publish<T>(c: Control<T>, e: Event<T>): Control<T> {
    c.(events := c.events + [e])
  }

  function Start<T>(src: Source<T>, c: Control<T>): Control<T> {
    if c.session.state.Running? then c
    else
      var s := c.session.(state := Running, current := c.session.start);
      Publish(c.(session := s, ticks := c.ticks.(unread := Some(src.ticks(s))),
                 candles := c.candles.(unread := Some(src.candles(s)))), Started)
  }

  function Pause<T>(c: Control<T>): Control<T> {
    if !c.session.state.Running? then c else Publish(c.(session := c.session.(state := State.Paused)), PausedEvent)
  }

  function Resume<T>(c: Control<T>): Control<T> {
    if !c.session.state.Paused? then c else Publish(c.(session := c.session.(state := Running)), Resumed)
  }

  function Stop<T>(c: Control<T>): Control<T> {
    if c.session.state.Stopped? then c else Publish(c.(session := c.session.(state := State.Stopped)), StoppedEvent)
  }

  function Restart<T>(src: Source<T>, c: Control<T>): Control<T> {
    var stopped := Stop(c);
    Start(src, stopped.(session := stopped.session.(current := stopped.session.start, state := State.Stopped)))
  }

  function Seek<T>(src: Source<T>, c: Control<T>, at: int): Control<T> {
    var s := c.session.(current := Clamp(c.session, at));
    Publish(c.(session := s, ticks := Feed(None, Some(src.ticks(s))), candles := Feed(None, Some(src.candles(s)))),
            Seeked(s.current))
  }

  function ChangeSpeed<T>(c: Control<T>, speed: Speed): Control<T> {
    if c.session.speed == speed then c else Publish(c.(session := c.session.(speed := speed)), SpeedChanged(speed))
  }

  function CompleteIf<T>(c: Control<T>, exhausted: bool): Control<T> {
    if exhausted || c.session.current >= c.session.end then
      Publish(c.(session := c.session.(state := State.Completed)), CompletedEvent)
    else c
  }

  /** A step that is refused, because the replay is not running, raises and changes nothing. */
  function StepTick<T>(src: Source<T>, c: Control<T>): Result<Control<T>, string> {
    if !c.session.state.Running? then Err("Replay engine is not running")
    else
      var (tick, rest) := c.ticks.Opened(src.ticks(c.session)).Take();
      if tick.None? then Ok(CompleteIf(c.(ticks := rest), true))
      else
        var (exhausted, ahead) := rest.Peek();
        Ok(CompleteIf(Publish(c.(session := c.session.(current := tick.value.at), lastTick := tick, ticks := ahead),
                              TickReplayed(tick.value)), exhausted))
  }

  function StepCandle<T>(src: Source<T>, c: Control<T>): Result<Control<T>, string> {
    if !c.session.state.Running? then Err("Replay engine is not running")
    else
      var (candle, rest) := c.candles.Opened(src.candles(c.session)).Take();
      if candle.None? then Ok(CompleteIf(c.(candles := rest), true))
      else
        var (exhausted, ahead) := rest.Peek();
        Ok(CompleteIf(Publish(c.(session := c.session.(current := candle.value.at), lastCandle := candle, candles := ahead),
                              CandleReplayed(candle.value)), exhausted))
  }

  // ---- runs -------------------------------------------------------------------------

  datatype Op = DoStart | DoRestart | DoSeek(at: int) | DoPause | DoResume | DoStop | DoSpeed(speed: Speed) | DoTick | DoCandle

  function Step<T>(src: Source<T>, c: Control<T>, op: Op): Control<T> {
    match op
    case DoStart => Start(src, c)
    case DoRestart => Restart(src, c)
    case DoSeek(at) => Seek(src, c, at)
    case DoPause => Pause(c)
    case DoResume => Resume(c)
    case DoStop => Stop(c)
    case DoSpeed(speed) => ChangeSpeed(c, speed)
    case DoTick => (match StepTick(src, c) case Ok(after) => after case Err(_) => c)
    case DoCandle => (match StepCandle(src, c) case Ok(after) => after case Err(_) => c)
  }

  function Run<T>(src: Source<T>, c: Control<T>, ops: seq<Op>): Control<T> {
    if ops == [] then c else Step(src, Run(src, c, ops[..|ops| - 1]), ops[|ops| - 1])
  }

  /** The operations that leave the source where it is. */
  predicate Continues(op: Op) {
    !op.DoStart? && !op.DoRestart? && !op.DoSeek?
  }

  function Ticks<T>(es: seq<Event<T>>): seq<Item<T>> {
    if es == [] then []
    else Ticks(es[..|es| - 1]) + if es[|es| - 1].TickReplayed? then [es[|es| - 1].tick] else []
  }

  function Candles<T>(es: seq<Event<T>>): seq<Item<T>> {
    if es == [] then []
    else Candles(es[..|es| - 1]) + if es[|es| - 1].CandleReplayed? then [es[|es| - 1].candle] else []
  }

  function Completions<T>(es: seq<Event<T>>): nat {
    if es == [] then 0 else Completions(es[..|es| - 1]) + if es[|es| - 1].CompletedEvent? then 1 else 0
  }

  // ---- nothing lost, nothing repeated -----------------------------------------------------

  lemma {:induction false} TakeSplits<T>(f: Feed<T>)
    ensures var (item, rest) := f.Take();
            && (item.Some? ==> f.Ahead() == [item.value] + rest.Ahead())
            && (item.None? ==> f.Ahead() == [] && rest == f)
            && (f.unread.Some? ==> rest.unread.Some?)
  {
    if f.next.None? && f.unread.Some? && f.unread.value != [] {
      assert f.unread.value == [f.unread.value[0]] + f.unread.value[1..];
    }
  }

  lemma {:induction false} PeekKeeps<T>(f: Feed<T>)
    requires f.unread.Some?
    ensures var (exhausted, rest) := f.Peek();
            rest.Ahead() == f.Ahead() && rest.unread.Some? && (exhausted <==> f.Ahead() == [])
  {
    if f.next.None? && f.unread.value != [] {
      assert f.unread.value == [f.unread.value[0]] + f.unread.value[1..];
    }
  }

  lemma EventsOfOne<T>(es: seq<Event<T>>, e: Event<T>)
    ensures Ticks(es + [e]) == if e.TickReplayed? then Ticks(es) + [e.tick] else Ticks(es)
    ensures Candles(es + [e]) == if e.CandleReplayed? then Candles(es) + [e.candle] else Candles(es)
    ensures Completions(es + [e]) == Completions(es) + if e.CompletedEvent? then 1 else 0
  {
    assert (es + [e])[..|es|] == es;
  }

  /** A cursor with both iterators open. */
  predicate Open<T>(c: Control<T>) {
    c.ticks.unread.Some? && c.candles.unread.Some?
  }

  lemma CompleteFacts<T>(c: Control<T>, exhausted: bool)
    ensures var r := CompleteIf(c, exhausted);
            && r.ticks == c.ticks && r.candles == c.candles && r.session == c.session.(state := r.session.state)
            && Ticks(r.events) == Ticks(c.events) && Candles(r.events) == Candles(c.events)
            && (exhausted || c.session.current >= c.session.end ==>
                  r.session.state.Completed? && Completions(r.events) == Completions(c.events) + 1)
            && (!exhausted && c.session.current < c.session.end ==> r == c)
  {
    EventsOfOne(c.events, CompletedEvent);
  }

  /** What a step does to each side: it publishes the first element ahead and keeps the rest. */
  lemma {:induction false} TickStepFacts<T>(src: Source<T>, c: Control<T>)
    requires Open(c) && c.session.state.Running?
    ensures StepTick(src, c).Ok? && Open(StepTick(src, c).value)
    ensures var r := StepTick(src, c).value;
            && Ticks(r.events) + r.ticks.Ahead() == Ticks(c.events) + c.ticks.Ahead()
            && |Ticks(r.events)| == |Ticks(c.events)| + (if c.ticks.Ahead() == [] then 0 else 1)
            && Candles(r.events) == Candles(c.events) && r.candles == c.candles
            && Completions(r.events) == Completions(c.events) + (if r.session.state.Completed? then 1 else 0)
            && (r.session.state.Completed? || r.session.state.Running?)
            && (r.session.state.Completed? <==> r.ticks.Ahead() == [] || r.session.current >= r.session.end)
  {
    hide Ticks, Candles, Completions, CompleteIf;
    TakeSplits(c.ticks);
    var (tick, rest) := c.ticks.Take();
    if tick.None? {
      CompleteFacts(c.(ticks := rest), true);
    } else {
      PeekKeeps(rest);
      var (exhausted, ahead) := rest.Peek();
      var shown := c.(session := c.session.(current := tick.value.at), lastTick := tick, ticks := ahead,
                      events := c.events + [TickReplayed(tick.value)]);
      EventsOfOne(c.events, TickReplayed(tick.value));
      CompleteFacts(shown, exhausted);
      assert Ticks(c.events) + c.ticks.Ahead() == Ticks(c.events) + [tick.value] + ahead.Ahead();
    }
  }

  lemma {:induction false} CandleStepFacts<T>(src: Source<T>, c: Control<T>)
    requires Open(c) && c.session.state.Running?
    ensures StepCandle(src, c).Ok? && Open(StepCandle(src, c).value)
    ensures var r := StepCandle(src, c).value;
            && Candles(r.events) + r.candles.Ahead() == Candles(c.events) + c.candles.Ahead()
            && |Candles(r.events)| == |Candles(c.events)| + (if c.candles.Ahead() == [] then 0 else 1)
            && Ticks(r.events) == Ticks(c.events) && r.ticks == c.ticks
            && Completions(r.events) == Completions(c.events) + (if r.session.state.Completed? then 1 else 0)
            && (r.session.state.Completed? || r.session.state.Running?)
            && (r.session.state.Completed? <==> r.candles.Ahead() == [] || r.session.current >= r.session.end)
  {
    hide Ticks, Candles, Completions, CompleteIf;
    TakeSplits(c.candles);
    var (candle, rest) := c.candles.Take();
    if candle.None? {
      CompleteFacts(c.(candles := rest), true);
    } else {
      PeekKeeps(rest);
      var (exhausted, ahead) := rest.Peek();
      var shown := c.(session := c.session.(current := candle.value.at), lastCandle := candle, candles := ahead,
                      events := c.events + [CandleReplayed(candle.value)]);
      EventsOfOne(c.events, CandleReplayed(candle.value));
      CompleteFacts(shown, exhausted);
      assert Candles(c.events) + c.candles.Ahead() == Candles(c.events) + [candle.value] + ahead.Ahead();
    }
  }

  /** Published so far, then what is ahead. */
  function TickStream<T>(c: Control<T>): seq<Item<T>> {
    Ticks(c.events) + c.ticks.Ahead()
  }

  function CandleStream<T>(c: Control<T>): seq<Item<T>> {
    Candles(c.events) + c.candles.Ahead()
  }

  lemma {:induction false} StepKeepsStreams<T>(src: Source<T>, c: Control<T>, op: Op)
    requires Continues(op) && Open(c)
    ensures Open(Step(src, c, op))
    ensures TickStream(Step(src, c, op)) == TickStream(c)
    ensures CandleStream(Step(src, c, op)) == CandleStream(c)
  {
    hide Ticks, Candles, Completions, StepTick, StepCandle;
    match op
    case DoTick => if c.session.state.Running? { TickStepFacts(src, c); } else { RefusedSteps(src, c); }
    case DoCandle => if c.session.state.Running? { CandleStepFacts(src, c); } else { RefusedSteps(src, c); }
    case DoPause => EventsOfOne(c.events, PausedEvent);
    case DoResume => EventsOfOne(c.events, Resumed);
    case DoStop => EventsOfOne(c.events, StoppedEvent);
    case DoSpeed(speed) => EventsOfOne(c.events, SpeedChanged(speed));
  }

  lemma RefusedSteps<T>(src: Source<T>, c: Control<T>)
    requires !c.session.state.Running?
    ensures StepTick(src, c).Err? && StepCandle(src, c).Err?
  {
  }

  /** Under any interleaving of steps, pauses, resumes, stops and speed changes, what has been
      published followed by the looked-ahead element and the unread rest never changes. */
  lemma {:induction false} StreamsAreConserved<T>(src: Source<T>, c: Control<T>, ops: seq<Op>)
    requires Open(c) && forall i | 0 <= i < |ops| :: Continues(ops[i])
    ensures Open(Run(src, c, ops))
    ensures TickStream(Run(src, c, ops)) == TickStream(c)
    ensures CandleStream(Run(src, c, ops)) == CandleStream(c)
  {
    hide Step, TickStream, CandleStream, Open;
    if ops != [] {
      StreamsAreConserved(src, c, ops[..|ops| - 1]);
      StepKeepsStreams(src, Run(src, c, ops[..|ops| - 1]), ops[|ops| - 1]);
    }
  }

  /** From any seek until the next start, restart or seek nothing is lost and nothing repeats: the
      ticks published since, the buffered tick and the unread ones are the source's stream. */
  lemma {:induction false} SeekReplaysTheSource<T>(src: Source<T>, c: Control<T>, at: int, ops: seq<Op>)
    requires forall i | 0 <= i < |ops| :: Continues(ops[i])
    ensures var after := Seek(src, c, at);
            && TickStream(Run(src, after, ops)) == Ticks(c.events) + src.ticks(after.session)
            && CandleStream(Run(src, after, ops)) == Candles(c.events) + src.candles(after.session)
  {
    hide Ticks, Candles, Run;
    var after := Seek(src, c, at);
    EventsOfOne(c.events, Seeked(after.session.current));
    StreamsAreConserved(src, after, ops);
    assert after.ticks.Ahead() == src.ticks(after.session) && after.candles.Ahead() == src.candles(after.session);
  }

  /** A start reopens the source but keeps what was looked ahead: the replay that follows is the
      source's stream exactly when nothing was buffered, as on a fresh controller. */
  lemma {:induction false} StartReplaysTheSourceIff<T>(src: Source<T>, c: Control<T>, ops: seq<Op>)
    requires !c.session.state.Running? && forall i | 0 <= i < |ops| :: Continues(ops[i])
    ensures var after := Start(src, c);
            && (TickStream(Run(src, after, ops)) == Ticks(c.events) + src.ticks(after.session) <==> c.ticks.next.None?)
            && (CandleStream(Run(src, after, ops)) == Candles(c.events) + src.candles(after.session) <==> c.candles.next.None?)
  {
    hide Ticks, Candles, Run, Feed.Ahead, Start, TickStream, CandleStream;
    StartFacts(src, c);
    StreamsAreConserved(src, Start(src, c), ops);
  }

  /** A seek puts the session at the time asked for, or else at the end it lies beyond, and says so; a start
      that is not ignored, and any restart, put it at its start and running. */
  lemma CursorIsPlaced<T>(src: Source<T>, c: Control<T>, at: int)
    requires c.session.start <= c.session.end
    ensures var r := Seek(src, c, at);
            && c.session.start <= r.session.current <= c.session.end
            && r.session == c.session.(current := r.session.current)
            && (c.session.start <= at <= c.session.end ==> r.session.current == at)
            && (at < c.session.start ==> r.session.current == c.session.start)
            && (at > c.session.end ==> r.session.current == c.session.end)
            && r.events == c.events + [Seeked(r.session.current)]
    ensures !c.session.state.Running? ==>
              Start(src, c).session == c.session.(state := Running, current := c.session.start)
    ensures Restart(src, c).session == c.session.(state := Running, current := c.session.start)
  {
  }

  /** Changing the speed changes nothing else, and is announced when it is another. */
  lemma SpeedIsChanged<T>(c: Control<T>, speed: Speed)
    ensures var r := ChangeSpeed(c, speed);
            && r == c.(session := c.session.(speed := speed), events := r.events)
            && r.events == c.events + if speed == c.session.speed then [] else [SpeedChanged(speed)]
  {
  }

  const FIRST := Item(1, 'a')
  const SECOND := Item(2, 'b')

  function TwoTicks(): Source<char> {
    Source((s: Session) => [FIRST, SECOND], (s: Session) => [])
  }

  /** Two ticks; start, step, stop and start again: the second tick is ahead twice, and comes first. */
  lemma RestartedReplayRepeats()
    ensures var c := Run(TwoTicks(), NewControl(Session(0, 9, 0, X1, State.Stopped)), [DoStart, DoTick, DoStop, DoStart]);
            Ticks(c.events) == [FIRST] && c.ticks.Ahead() == [SECOND, FIRST, SECOND]
  {
    hide Ticks, Start, Stop, StepTick, Run, TwoTicks, Feed.Ahead;
    var src, c0 := TwoTicks(), NewControl(Session(0, 9, 0, X1, State.Stopped));
    var c1 := Start(src, c0);
    Restarted(c0);
    FirstStep(src, c1);
    var c2 := StepTick(src, c1).value;
    var c3 := Stop(c2);
    StopKeeps(c2);
    Restarted(c3);
    NothingReplayed(c0);
    RunOfFour(src, c0, [DoStart, DoTick, DoStop, DoStart]);
  }

  lemma NothingReplayed(c: Control<char>)
    requires c.events == []
    ensures Ticks(c.events) == []
  {
  }

  lemma Restarted(c: Control<char>)
    requires !c.session.state.Running?
    ensures var r := Start(TwoTicks(), c);
            && r.session.state.Running? && r.session.end == c.session.end
            && r.ticks == Feed(c.ticks.next, Some([FIRST, SECOND])) && Ticks(r.events) == Ticks(c.events)
            && (c.ticks.next == Some(SECOND) ==> r.ticks.Ahead() == [SECOND, FIRST, SECOND])
  {
    hide Ticks;
    EventsOfOne(c.events, Started);
  }

  lemma FirstStep(src: Source<char>, c: Control<char>)
    requires c.session.state.Running? && c.session.end == 9 && c.ticks == Feed(None, Some([FIRST, SECOND]))
    ensures StepTick(src, c).Ok?
    ensures var r := StepTick(src, c).value;
            r.session.state.Running? && r.ticks.next == Some(SECOND) && Ticks(r.events) == Ticks(c.events) + [FIRST]
  {
    hide Ticks;
    EventsOfOne(c.events, TickReplayed(FIRST));
  }

  lemma StopKeeps(c: Control<char>)
    ensures !Stop(c).session.state.Running? && Stop(c).ticks == c.ticks && Ticks(Stop(c).events) == Ticks(c.events)
  {
    hide Ticks;
    EventsOfOne(c.events, StoppedEvent);
  }

  lemma RunOfFour<T>(src: Source<T>, c: Control<T>, ops: seq<Op>)
    requires |ops| == 4
    ensures Run(src, c, ops) == Step(src, Step(src, Step(src, Step(src, c, ops[0]), ops[1]), ops[2]), ops[3])
  {
    hide Step;
    assert ops[..3][..2] == ops[..2] && ops[..2][..1] == ops[..1] && ops[..1][..0] == [];
    assert Run(src, c, ops[..1]) == Step(src, c, ops[0]);
    assert Run(src, c, ops[..2]) == Step(src, Run(src, c, ops[..1]), ops[1]);
    assert Run(src, c, ops[..3]) == Step(src, Run(src, c, ops[..2]), ops[2]);
  }

  /** Right after a start what is ahead is the source's stream, behind whatever was buffered. */
  lemma {:induction false} StartFacts<T>(src: Source<T>, c: Control<T>)
    requires !c.session.state.Running?
    ensures var after := Start(src, c);
            && Open(after)
            && (TickStream(after) == Ticks(c.events) + src.ticks(after.session) <==> c.ticks.next.None?)
            && (CandleStream(after) == Candles(c.events) + src.candles(after.session) <==> c.candles.next.None?)
  {
    hide Ticks, Candles, Feed.Ahead;
    var after := Start(src, c);
    EventsOfOne(c.events, Started);
    AheadIs(Ticks(c.events), after.ticks, src.ticks(after.session));
    AheadIs(Candles(c.events), after.candles, src.candles(after.session));
  }

  lemma AheadIs<T>(published: seq<Item<T>>, f: Feed<T>, items: seq<Item<T>>)
    requires f.unread == Some(items)
    ensures published + f.Ahead() == published + items <==> f.next.None?
  {
    if f.next.None? {
      assert f.Ahead() == items;
    } else {
      assert |published + f.Ahead()| == |published + items| + 1;
    }
  }

  // ---- completion ------------------------------------------------------------------------------

  /** Completion is remembered until the next start, and while it lasts nothing is replayed. */
  lemma {:induction false} CompletedStepKeepsQuiet<T>(src: Source<T>, c: Control<T>, op: Op)
    requires !op.DoStart? && !op.DoRestart?
    requires c.session.state.Completed? || c.session.state.Stopped?
    ensures var r := Step(src, c, op);
            && (r.session.state.Completed? || r.session.state.Stopped?)
            && Ticks(r.events) == Ticks(c.events) && Candles(r.events) == Candles(c.events)
            && Completions(r.events) == Completions(c.events)
  {
    hide Ticks, Candles, Completions;
    match op
    case DoSeek(at) => EventsOfOne(c.events, Seeked(Clamp(c.session, at)));
    case DoPause => EventsOfOne(c.events, PausedEvent);
    case DoResume => EventsOfOne(c.events, Resumed);
    case DoStop => EventsOfOne(c.events, StoppedEvent);
    case DoSpeed(speed) => EventsOfOne(c.events, SpeedChanged(speed));
    case DoTick =>
    case DoCandle =>
  }

  lemma {:induction false} CompletedRunKeepsQuiet<T>(src: Source<T>, c: Control<T>, ops: seq<Op>)
    requires forall i | 0 <= i < |ops| :: !ops[i].DoStart? && !ops[i].DoRestart?
    requires c.session.state.Completed? || c.session.state.Stopped?
    ensures var r := Run(src, c, ops);
            && (r.session.state.Completed? || r.session.state.Stopped?)
            && Ticks(r.events) == Ticks(c.events) && Candles(r.events) == Candles(c.events)
            && Completions(r.events) == Completions(c.events)
            && StepTick(src, r).Err? && StepCandle(src, r).Err?
  {
    hide Step, Ticks, Candles, Completions, StepTick, StepCandle;
    if ops != [] {
      CompletedRunKeepsQuiet(src, c, ops[..|ops| - 1]);
      CompletedStepKeepsQuiet(src, Run(src, c, ops[..|ops| - 1]), ops[|ops| - 1]);
    }
    RefusedSteps(src, Run(src, c, ops));
  }

  /** Every operation but a start publishes at most one completion, and only by completing. */
  lemma {:induction false} StepCompletesOnce<T>(src: Source<T>, c: Control<T>, op: Op)
    requires !op.DoStart? && !op.DoRestart? && Open(c)
    ensures var r := Step(src, c, op);
            && Open(r)
            && Completions(r.events) <= Completions(c.events) + 1
            && (Completions(r.events) == Completions(c.events) + 1 ==> c.session.state.Running? && r.session.state.Completed?)
            && Completions(r.events) >= Completions(c.events)
  {
    hide Ticks, Candles, Completions, StepTick, StepCandle;
    match op
    case DoTick => if c.session.state.Running? { TickStepFacts(src, c); } else { RefusedSteps(src, c); }
    case DoCandle => if c.session.state.Running? { CandleStepFacts(src, c); } else { RefusedSteps(src, c); }
    case DoSeek(at) => EventsOfOne(c.events, Seeked(Clamp(c.session, at)));
    case DoPause => EventsOfOne(c.events, PausedEvent);
    case DoResume => EventsOfOne(c.events, Resumed);
    case DoStop => EventsOfOne(c.events, StoppedEvent);
    case DoSpeed(speed) => EventsOfOne(c.events, SpeedChanged(speed));
  }

  /** Between starts a replay completes at most once, and once it has, no step succeeds. */
  lemma {:induction false} CompletesAtMostOnce<T>(src: Source<T>, c: Control<T>, ops: seq<Op>)
    requires Open(c) && forall i | 0 <= i < |ops| :: !ops[i].DoStart? && !ops[i].DoRestart?
    ensures var r := Run(src, c, ops);
            && Open(r)
            && Completions(c.events) <= Completions(r.events) <= Completions(c.events) + 1
            && (Completions(r.events) == Completions(c.events) + 1 ==>
                  && (r.session.state.Completed? || r.session.state.Stopped?)
                  && StepTick(src, r).Err? && StepCandle(src, r).Err?)
  {
    hide Step, Ticks, Candles, Completions, Open, StepTick, StepCandle;
    if ops != [] {
      var before := Run(src, c, ops[..|ops| - 1]);
      CompletesAtMostOnce(src, c, ops[..|ops| - 1]);
      StepCompletesOnce(src, before, ops[|ops| - 1]);
      if Completions(before.events) == Completions(c.events) + 1 {
        CompletedStepKeepsQuiet(src, before, ops[|ops| - 1]);
      }
    }
    var r := Run(src, c, ops);
    if !r.session.state.Running? {
      RefusedSteps(src, r);
    }
  }

  /** How many of the operations are this one. */
  function Steps(ops: seq<Op>, op: Op): nat {
    if ops == [] then 0 else Steps(ops[..|ops| - 1], op) + if ops[|ops| - 1] == op then 1 else 0
  }

  /** A replay stepped from `c` by n ticks and m candles: not at its end on either side, or completed. */
  ghost predicate Stepped<T>(c: Control<T>, r: Control<T>, n: nat, m: nat) {
    if r.session.state.Completed? then Completions(r.events) == Completions(c.events) + 1
    else
      && r.session.state.Running? && Completions(r.events) == Completions(c.events)
      && |r.ticks.Ahead()| == |c.ticks.Ahead()| - n && (n > 0 ==> r.ticks.Ahead() != [])
      && |r.candles.Ahead()| == |c.candles.Ahead()| - m && (m > 0 ==> r.candles.Ahead() != [])
  }

  lemma {:induction false} SteppedRun<T>(src: Source<T>, c: Control<T>, ops: seq<Op>)
    requires Open(c) && c.session.state.Running? && forall i | 0 <= i < |ops| :: ops[i].DoTick? || ops[i].DoCandle?
    ensures Open(Run(src, c, ops)) && Stepped(c, Run(src, c, ops), Steps(ops, DoTick), Steps(ops, DoCandle))
  {
    hide Ticks, Candles, Completions, StepTick, StepCandle, Feed.Ahead;
    if ops != [] {
      var before := Run(src, c, ops[..|ops| - 1]);
      SteppedRun(src, c, ops[..|ops| - 1]);
      if before.session.state.Completed? {
        RefusedSteps(src, before);
      } else if ops[|ops| - 1].DoTick? {
        TickStepFacts(src, before);
      } else {
        CandleStepFacts(src, before);
      }
    }
  }

  /** Stepping a running replay through all its ticks, or all its candles, in any interleaving,
      completes it and says so exactly once. */
  lemma {:induction false} StreamCompletesOnce<T>(src: Source<T>, c: Control<T>, ops: seq<Op>)
    requires Open(c) && c.session.state.Running? && forall i | 0 <= i < |ops| :: ops[i].DoTick? || ops[i].DoCandle?
    requires || (Steps(ops, DoTick) >= |c.ticks.Ahead()| && Steps(ops, DoTick) > 0)
             || (Steps(ops, DoCandle) >= |c.candles.Ahead()| && Steps(ops, DoCandle) > 0)
    ensures var r := Run(src, c, ops);
            r.session.state.Completed? && Completions(r.events) == Completions(c.events) + 1
  {
    hide Run, Completions, Steps, Open, Feed.Ahead;
    SteppedRun(src, c, ops);
  }
}
