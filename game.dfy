/** `gameState` as a mutable object with the handlers of the page as its methods. Each
    method is proved to leave the object in the state the matching transition of `Engine`
    computes from the old state, so every property proved there holds of the object. The
    object's fields are grouped as the handlers use them: the pause-aware clock, the
    pointer's motion, and the tally of the session. */
module Game {
  import opened Wrappers
  import opened Trials
  import opened Scheduler
  import opened Timer
  import opened Engine

  datatype Clock = Clock(startTime: Option<Time>, isPaused: bool, totalPausedDuration: int,
                         pauseStartTime: Option<Time>)

  datatype Pointer = Pointer(angle: real, speed: real, lastSpeedChange: Option<Time>,
                             lastFrameTime: Option<Time>)

  datatype Tally = Tally(responses: seq<Response>, hits: nat, misses: nat, falseAlarms: nat,
                         correctRejections: nat)

  class Session {
    var isRunning: bool
    var isDemo: bool
    var gameDuration: int
    var clock: Clock
    var pointer: Pointer
    var currentTrial: Option<nat>
    var trials: seq<Trial>
    var trialStartTime: Option<Time>
    var tally: Tally

    /** The object's fields as a state value. */
    function Snapshot(): State
      reads this
    {
      State(isRunning, isDemo, gameDuration,
            clock.startTime, clock.isPaused, clock.totalPausedDuration, clock.pauseStartTime,
            pointer.angle, pointer.speed, pointer.lastSpeedChange, pointer.lastFrameTime,
            currentTrial, trials, trialStartTime,
            tally.responses, tally.hits, tally.misses, tally.falseAlarms, tally.correctRejections)
    }

    ghost predicate Valid()
      reads this
    {
      Engine.Valid(Snapshot())
    }

    /** The `gameState` literal. */
    constructor()
      ensures Snapshot() == Initial()
      ensures Valid()
    {
      isRunning, isDemo, gameDuration := false, true, DemoDuration;
      clock := Clock(None, false, 0, None);
      pointer := Pointer(0.0, BaseSpeed, None, None);
      currentTrial, trials, trialStartTime := None, [], None;
      tally := Tally([], 0, 0, 0, 0);
    }

    /** `getElapsed()` */
    method GetElapsed(now: Time) returns (elapsed: int)
      ensures elapsed == Elapsed(Snapshot(), now)
    {
      var paused := clock.totalPausedDuration;
      if clock.isPaused && clock.pauseStartTime.Some? {
        paused := paused + (now - clock.pauseStartTime.value);
      }
      elapsed := now - OrZero(clock.startTime) - paused;
    }

    /** `resetGame()` */
    method Reset()
      modifies this
      ensures Snapshot() == Engine.Reset(old(Snapshot()))
      ensures Valid()
    {
      isRunning := false;
      clock := Clock(None, false, 0, None);
      pointer := Pointer(0.0, BaseSpeed, None, None);
      currentTrial := None;
      trials := [];
      trialStartTime := None;
      tally := Tally([], 0, 0, 0, 0);
    }

    /** `startDemo()` (`isDemo`) or `startFullGame()` at time `now`, with `draws` the random
        stream of the trial generator. Like the source it also arms a 1000 ms
        `startNextTrial`, which the caller runs as `StartNextTrial(now + 1000)`. The session
        ends up running with a fresh schedule that covers it and no score. */
    method Start(now: Time, isDemo: bool, draws: nat -> real) returns (frame: Option<Frame>)
      requires IsDraws(draws)
      modifies this
      ensures WellScheduled(trials, gameDuration as real) && CoversSession(trials, gameDuration as real)
      ensures Snapshot() == Launch(old(Snapshot()), now, isDemo, trials)
      ensures Valid()
      ensures frame.Some? && !frame.value.ended && frame.value.lookAhead.None? && !frame.value.nextTrialArmed
    {
      Reset();
      isRunning := true;
      this.isDemo := isDemo;
      gameDuration := if isDemo then DemoDuration else FullGameDuration;
      clock := clock.(startTime := Some(now));
      trials := GenerateTrials(gameDuration as real, draws);
      pointer := pointer.(lastFrameTime := Some(now), lastSpeedChange := Some(now));
      assert Snapshot() == Launch(old(Snapshot()), now, isDemo, trials);
      // The speed timer was just reset, so this frame reads no random draw.
      FirstFrameQuiet(old(Snapshot()), now, isDemo, trials, 0.0);
      frame := GameLoop(now, 0.0);
    }

    /** `pauseGame()` */
    method Pause(now: Time)
      requires Valid()
      modifies this
      ensures Snapshot() == Engine.Pause(old(Snapshot()), now)
      ensures Valid()
    {
      if !isRunning || clock.isPaused {
        return;
      }
      clock := clock.(isPaused := true, pauseStartTime := Some(now));
    }

    /** `resumeGame()`, which runs a frame at once; `draw` is that frame's random draw. */
    method Resume(now: Time, draw: real) returns (frame: Option<Frame>)
      requires Valid() && 0.0 <= draw < 1.0
      modifies this
      ensures (Snapshot(), frame) == Engine.Resume(old(Snapshot()), now, draw)
      ensures Valid()
    {
      if !isRunning || !clock.isPaused {
        return None;
      }
      clock := clock.(totalPausedDuration := clock.totalPausedDuration + (now - OrZero(clock.pauseStartTime)),
                      isPaused := false, pauseStartTime := None);
      pointer := pointer.(lastFrameTime := Some(now), lastSpeedChange := Some(now));
      assert Snapshot() == Unpause(old(Snapshot()), now);
      frame := GameLoop(now, draw);
    }

    /** `stopGame()` */
    method Stop(now: Time)
      requires Valid()
      modifies this
      ensures Snapshot() == Engine.Stop(old(Snapshot()), now)
      ensures Valid()
    {
      if !isRunning {
        return;
      }
      isRunning := false;
      clock := clock.(isPaused := false);
      if clock.pauseStartTime.Some? {
        clock := clock.(totalPausedDuration := clock.totalPausedDuration + (now - clock.pauseStartTime.value),
                        pauseStartTime := None);
      }
      EndGame();
    }

    /** `endGameShowResults()` (state part) */
    method EndGame()
      requires Valid()
      modifies this
      ensures Snapshot() == Engine.EndGame(old(Snapshot()))
      ensures Valid()
    {
      isRunning := false;
      clock := clock.(isPaused := false, pauseStartTime := None);
    }

    /** `startNextTrial()`; returns the delay of the look-ahead call it arms, if any. */
    method StartNextTrial(now: Time) returns (lookAhead: Option<real>)
      requires Valid()
      modifies this
      ensures (Snapshot(), lookAhead) == Engine.StartNextTrial(old(Snapshot()), now)
      ensures Valid()
    {
      lookAhead := None;
      if !isRunning || clock.isPaused {
        return;
      }
      var elapsed := GetElapsed(now);
      var nextTrial := FindFirst(trials, t => Eligible(t, elapsed));
      if nextTrial.Some? && currentTrial.None? {
        currentTrial := nextTrial;
        trialStartTime := Some(now);
      }
      if currentTrial.None? {
        var upcomingTrial := FindFirst(trials, t => Upcoming(t, elapsed));
        if upcomingTrial.Some? {
          lookAhead := Some(trials[upcomingTrial.value].startTime - elapsed as real);
        }
      }
    }

    /** `handleKeyPress(event)`; `isSpace` says whether the key is the space bar. Returns
        whether a 1000 ms `startNextTrial` was armed. */
    method KeyPress(now: Time, isSpace: bool) returns (armed: bool)
      requires Valid()
      modifies this
      ensures (Snapshot(), armed) == Engine.KeyPress(old(Snapshot()), now, isSpace)
      ensures Valid()
    {
      armed := false;
      if !isRunning || clock.isPaused || currentTrial.None? {
        return;
      }
      if !isSpace {
        return;
      }
      var trial := trials[currentTrial.value];
      var isInWindow := InWindow(pointer.angle, trial);
      if trial.isGoTrial {
        if isInWindow && !trial.responded {
          PressInWindow(now);
          armed := EndTrialEarly();
        } else if !isInWindow && !trial.responded {
          PressOutside();
          armed := EndTrialEarly();
        }
      } else if !trial.responded {
        PressNoGo(now);
        armed := EndTrialEarly();
      }
    }

    /** The go-trial branch of `handleKeyPress` for a press inside the window. */
    method PressInWindow(now: Time)
      requires Valid() && currentTrial.Some?
      requires !trials[currentTrial.value].responded && trials[currentTrial.value].isGoTrial
      modifies this
      ensures Snapshot() == Engine.PressInWindow(old(Snapshot()), now)
      ensures Valid()
    {
      var pressTime := now;
      var i := currentTrial.value;
      var trial := trials[i];
      var answered := trial.(responded := true, responseTime := Some(pressTime - OrZero(trialStartTime)));
      var entry := if trial.pointerEntryTime.Some?
                   then Some(Response(Hit, pressTime - trial.pointerEntryTime.value, trial.id))
                   else None;
      trials := trials[i := answered];
      tally := tally.(responses := tally.responses + Entries(entry), hits := tally.hits + 1);
    }

    /** The go-trial branch of `handleKeyPress` for a press outside the window. */
    method PressOutside()
      requires Valid() && currentTrial.Some?
      requires !trials[currentTrial.value].responded && trials[currentTrial.value].isGoTrial
      modifies this
      ensures Snapshot() == Engine.PressOutside(old(Snapshot()))
      ensures Valid()
    {
      var i := currentTrial.value;
      trials := trials[i := trials[i].(responded := true)];
      tally := tally.(hits := tally.hits + 1);
    }

    /** The no-go branch of `handleKeyPress`. */
    method PressNoGo(now: Time)
      requires Valid() && currentTrial.Some?
      requires !trials[currentTrial.value].responded && !trials[currentTrial.value].isGoTrial
      modifies this
      ensures Snapshot() == Engine.PressNoGo(old(Snapshot()), now)
      ensures Valid()
    {
      var pressTime := now;
      var i := currentTrial.value;
      var trial := trials[i];
      var answered := trial.(responded := true, responseTime := Some(pressTime - OrZero(trialStartTime)));
      var entry := Response(FalseAlarm, pressTime - OrZero(trialStartTime), trial.id);
      trials := trials[i := answered];
      tally := tally.(responses := tally.responses + [entry], falseAlarms := tally.falseAlarms + 1);
    }

    /** `endTrialEarly()`; returns whether a 1000 ms `startNextTrial` was armed. */
    method EndTrialEarly() returns (armed: bool)
      modifies this
      ensures (Snapshot(), armed) == Engine.EndTrialEarly(old(Snapshot()))
    {
      if currentTrial.None? {
        return false;
      }
      currentTrial := None;
      trialStartTime := None;
      armed := true;
    }

    /** The expiry and entry logic of `draw()`; returns whether a 1000 ms `startNextTrial`
        was armed. */
    method Draw(now: Time) returns (armed: bool)
      requires Valid()
      modifies this
      ensures (Snapshot(), armed) == Engine.Draw(old(Snapshot()), now)
      ensures Valid()
    {
      armed := false;
      if currentTrial.None? {
        return;
      }
      var i := currentTrial.value;
      var trial := trials[i];
      var elapsed := now - OrZero(trialStartTime);
      if (elapsed as real) < trial.duration {
        if trial.pointerEntryTime.None? && InWindow(pointer.angle, trial) {
          Stamp(now);
        }
      } else {
        Expire();
        armed := true;
      }
    }

    /** The entry stamp of `draw()`. */
    method Stamp(now: Time)
      requires Valid() && currentTrial.Some?
      requires trials[currentTrial.value].pointerEntryTime.None?
      modifies this
      ensures Snapshot() == Engine.Stamp(old(Snapshot()), now)
      ensures Valid()
    {
      var i := currentTrial.value;
      trials := trials[i := trials[i].(pointerEntryTime := Some(now))];
    }

    /** The expiry of `draw()`: the current trial is retired and scored. */
    method Expire()
      requires Valid() && currentTrial.Some?
      modifies this
      ensures Snapshot() == Engine.Expire(old(Snapshot()))
      ensures Valid()
    {
      var trial := trials[currentTrial.value];
      if trial.isGoTrial && !trial.responded {
        tally := tally.(misses := tally.misses + 1);
      } else if !trial.isGoTrial && !trial.responded {
        tally := tally.(correctRejections := tally.correctRejections + 1);
      }
      currentTrial := None;
      trialStartTime := None;
    }

    /** The speed change of `gameLoop()`. */
    method ChangeSpeed(now: Time, draw: real)
      requires Valid() && 0.0 <= draw < 1.0
      modifies this
      ensures Snapshot() == Engine.ChangeSpeed(old(Snapshot()), now, draw)
      ensures Valid()
    {
      if pointer.lastSpeedChange.Some? && now - pointer.lastSpeedChange.value >= SpeedChangeInterval {
        pointer := pointer.(speed := NewSpeed(draw), lastSpeedChange := Some(now));
      }
    }

    /** The angle update of `gameLoop()`. */
    method Move(now: Time)
      requires Valid()
      modifies this
      ensures Snapshot() == Engine.Move(old(Snapshot()), now)
      ensures Valid()
    {
      if pointer.lastFrameTime.Some? {
        var deltaTime := ((now - pointer.lastFrameTime.value) as real) / 1000.0;
        pointer := pointer.(angle := pointer.angle + pointer.speed * deltaTime * 60.0);
      }
      pointer := pointer.(lastFrameTime := Some(now));
    }

    /** `gameLoop()` at time `now`; `draw` is the random draw of a speed change. Returns the
        frame it renders, or nothing when the session is not running or is paused. */
    method GameLoop(now: Time, draw: real) returns (frame: Option<Frame>)
      requires Valid() && 0.0 <= draw < 1.0
      modifies this
      ensures (Snapshot(), frame) == Tick(old(Snapshot()), now, draw)
      ensures Valid()
    {
      if !isRunning || clock.isPaused {
        return None;
      }
      var elapsed := GetElapsed(now);
      var remainingSec := RemainingSeconds(gameDuration, elapsed);
      var timer := TimerText(isDemo, remainingSec);
      ChangeSpeed(now, draw);
      Move(now);
      assert Snapshot() == Advance(old(Snapshot()), now, draw);
      var lookAhead := StartNextTrial(now);
      var armed := Draw(now);
      if elapsed >= gameDuration {
        EndGame();
        return Some(Frame(timer, lookAhead, armed, true));
      }
      frame := Some(Frame(timer, lookAhead, armed, false));
    }
  }
}
