/** The replay controller object. */
module ReplayControllers {
  import opened Common
  import opened Replay

  class ReplayController<T> {
    const source: Source<T>
    var session: Session
    var tickIterator: Option<seq<Item<T>>>
    var candleIterator: Option<seq<Item<T>>>
    var nextTick: Option<Item<T>>
    var nextCandle: Option<Item<T>>
    var currentTick: Option<Item<T>>
    var currentCandle: Option<Item<T>>
    var published: seq<Event<T>>

    ghost function View(): Control<T>
      reads this
    {
      Control(session, Feed(nextTick, tickIterator), Feed(nextCandle, candleIterator), currentTick, currentCandle, published)
    }

    constructor (session: Session, source: Source<T>)
      ensures this.source == source && View() == NewControl(session)
    {
      this.session, this.source := session, source;
      tickIterator, candleIterator, nextTick, nextCandle := None, None, None, None;
      currentTick, currentCandle, published := None, None, [];
    }

    method Start()
      modifies this
      ensures View() == Replay.Start(source, old(View()))
    {
      if session.state.Running? {
        return;
      }
      session := session.(state := Running);
      session := session.(current := session.start);
      tickIterator := Some(source.ticks(session));
      candleIterator := Some(source.candles(session));
      published := published + [Started];
    }

    method Pause()
      modifies this
      ensures View() == Replay.Pause(old(View()))
    {
      if !session.state.Running? {
        return;
      }
      session := session.(state := State.Paused);
      published := published + [PausedEvent];
    }

    method Resume()
      modifies this
      ensures View() == Replay.Resume(old(View()))
    {
      if !session.state.Paused? {
        return;
      }
      session := session.(state := Running);
      published := published + [Resumed];
    }

    method Stop()
      modifies this
      ensures View() == Replay.Stop(old(View()))
    {
      if session.state.Stopped? {
        return;
      }
      session := session.(state := State.Stopped);
      published := published + [StoppedEvent];
    }

    method Restart()
      modifies this
      ensures View() == Replay.Restart(source, old(View()))
    {
      Stop();
      session := session.(current := session.start, state := State.Stopped);
      Start();
    }

    method Seek(at: int)
      modifies this
      ensures View() == Replay.Seek(source, old(View()), at)
    {
      var target := Clamp(session, at);
      session := session.(current := target);
      tickIterator := Some(source.ticks(session));
      candleIterator := Some(source.candles(session));
      nextTick, nextCandle := None, None;
      published := published + [Seeked(target)];
    }

    method ChangeSpeed(speed: Speed)
      modifies this
      ensures View() == Replay.ChangeSpeed(old(View()), speed)
    {
      if session.speed == speed {
        return;
      }
      session := session.(speed := speed);
      published := published + [SpeedChanged(speed)];
    }

    /** False where the source raises. */
    method StepTick() returns (ok: bool)
      modifies this
      ensures ok <==> Replay.StepTick(source, old(View())).Ok?
      ensures ok ==> View() == Replay.StepTick(source, old(View())).value
      ensures !ok ==> View() == old(View())
    {
      if !session.state.Running? {
        return false;
      }
      if tickIterator.None? {
        tickIterator := Some(source.ticks(session));
      }
      ok := true;
      var tick := GetTick();
      if tick.None? {
        CompleteIfFinished(true);
        return;
      }
      session := session.(current := tick.value.at);
      currentTick := tick;
      published := published + [TickReplayed(tick.value)];
      var exhausted := PeekTickIsExhausted();
      CompleteIfFinished(exhausted);
    }

    method StepCandle() returns (ok: bool)
      modifies this
      ensures ok <==> Replay.StepCandle(source, old(View())).Ok?
      ensures ok ==> View() == Replay.StepCandle(source, old(View())).value
      ensures !ok ==> View() == old(View())
    {
      if !session.state.Running? {
        return false;
      }
      if candleIterator.None? {
        candleIterator := Some(source.candles(session));
      }
      ok := true;
      var candle := GetCandle();
      if candle.None? {
        CompleteIfFinished(true);
        return;
      }
      session := session.(current := candle.value.at);
      currentCandle := candle;
      published := published + [CandleReplayed(candle.value)];
      var exhausted := PeekCandleIsExhausted();
      CompleteIfFinished(exhausted);
    }

    method CompleteIfFinished(exhausted: bool)
      modifies this`session, this`published
      ensures View() == CompleteIf(old(View()), exhausted)
    {
      if exhausted || session.current >= session.end {
        session := session.(state := State.Completed);
        published := published + [CompletedEvent];
      }
    }

    method GetTick() returns (tick: Option<Item<T>>)
      modifies this`nextTick, this`tickIterator
      ensures (tick, Feed(nextTick, tickIterator)) == old(View().ticks).Take()
    {
      if nextTick.Some? {
        tick := nextTick;
        nextTick := None;
      } else if tickIterator.None? || tickIterator.value == [] {
        tick := None;
      } else {
        tick := Some(tickIterator.value[0]);
        tickIterator := Some(tickIterator.value[1..]);
      }
    }

    method PeekTickIsExhausted() returns (exhausted: bool)
      requires tickIterator.Some?
      modifies this`nextTick, this`tickIterator
      ensures (exhausted, Feed(nextTick, tickIterator)) == old(View().ticks).Peek()
    {
      if nextTick.Some? {
        exhausted := false;
      } else if tickIterator.value == [] {
        exhausted := true;
      } else {
        nextTick := Some(tickIterator.value[0]);
        tickIterator := Some(tickIterator.value[1..]);
        exhausted := false;
      }
    }

    method GetCandle() returns (candle: Option<Item<T>>)
      modifies this`nextCandle, this`candleIterator
      ensures (candle, Feed(nextCandle, candleIterator)) == old(View().candles).Take()
    {
      if nextCandle.Some? {
        candle := nextCandle;
        nextCandle := None;
      } else if candleIterator.None? || candleIterator.value == [] {
        candle := None;
      } else {
        candle := Some(candleIterator.value[0]);
        candleIterator := Some(candleIterator.value[1..]);
      }
    }

    method PeekCandleIsExhausted() returns (exhausted: bool)
      requires candleIterator.Some?
      modifies this`nextCandle, this`candleIterator
      ensures (exhausted, Feed(nextCandle, candleIterator)) == old(View().candles).Peek()
    {
      if nextCandle.Some? {
        exhausted := false;
      } else if candleIterator.value == [] {
        exhausted := true;
      } else {
        nextCandle := Some(candleIterator.value[0]);
        candleIterator := Some(candleIterator.value[1..]);
        exhausted := false;
      }
    }
  }
}
