# Rotary CPT session engine in Dafny

This project models the engine of the rotary continuous performance test in
`rotary-cpt/game.js`. The test is a go/no-go vigilance task. A pointer turns around a dial.
Coloured windows open on the dial one at a time. The player presses the space bar when the
pointer is inside a blue (go) window and holds back on a red (no-go) window. At the end the
session is summarised as hits, misses, false alarms, correct rejections, their rates,
d′ and the hit reaction times.

The model covers:

- the trial generator `generateTrials`: spaced start times, 70 % go trials, and a window
  placed by rejection sampling with at most 20 attempts and a fallback;
- the pause-aware clock: `getElapsed`, pause, resume and stop;
- the trial lifecycle: `startNextTrial`, the entry stamp and expiry inside `draw`,
  `endTrialEarly`, and the classification of a key press in `handleKeyPress`;
- one animation frame of `gameLoop`: the timer text, the speed change every 3 s and the
  frame-rate independent angle update;
- `computeResults`, `formatTimer` and `resetGame`.

The files are:

- `angles.dfy`: JavaScript's double `%` normalisation and the shortest circular distance.
- `scheduler.dfy`: `generateTrials` as imperative methods over a stream of random draws.
- `trials.dfy`: the trial and response records, and counting lemmas.
- `timer.dfy`: the countdown text and a parser that reads it back.
- `statistics.dfy`: `computeResults`.
- `engine.dfy`: every handler as a pure transition on a `State` value, with the invariant
  `Valid` that each transition keeps.
- `game.dfy`: the `Game.Session` class. Its fields are the fields of `gameState`. Each
  method is proved to produce the state that the matching `Engine` transition computes.

Time is passed in explicitly. Every handler takes the current time `now` (in ms), and every
random draw is a parameter in `[0, 1)`. A handler that arms a `setTimeout` reports it instead
of scheduling it: `StartNextTrial` returns the look-ahead delay, and a handler that arms
the 1000 ms restart returns a flag saying so. The caller is expected to run the matching
`StartNextTrial` later.

Properties proved include:

- Every generated schedule has start times 2000–4000 ms apart, all before the session
  length, and covers the session.
- Every window can be reached in 200–2500 ms. The `> 2500` fallback branch cannot run.
- Elapsed time freezes while paused. Pause followed by resume subtracts exactly the paused
  wall time.
- `hits`, `falseAlarms` and the response log always agree with the responded trials.
- A frame never scores a response.
- The displayed timer reads back as the remaining whole seconds.
- d′ stays the same when the hit and false-alarm rates are swapped and both reflected (r ↦ 1 − r).
- One go trial can be counted as a miss twice (`Engine.MissCountedTwice`).

## Model

| member | source | states |
|---|---|---|
| Angles.Trunc | rotary-cpt/game.js:269 | the truncation toward zero that JavaScript's `%` uses: the integer between 0 and x, less than one away |
| Angles.RemTwoPi | rotary-cpt/game.js:269 | `x % (2π)` with JavaScript's sign rule: in [0, 2π) for non-negative x and in (−2π, 0] for negative x |
| Angles.Normalize | rotary-cpt/game.js:269 | the normalised angle lies in [0, 2π) |
| Angles.NormalizeClosedForm | rotary-cpt/game.js:269 | the source's `((a % 2π) + 2π) % 2π` equals the closed form `a − 2π·⌊a / 2π⌋` used by the model |
| Angles.NormalizeUnique | rotary-cpt/game.js:269 | any value in [0, 2π) that differs from a by whole turns is the normalised angle |
| Angles.NormalizeTurns | rotary-cpt/game.js:269 | adding whole turns does not change the normalised angle |
| Angles.NormalizeIdempotent | rotary-cpt/game.js:288 | an angle already in [0, 2π) is left unchanged (the window angle drawn at line 285) |
| Angles.Fold | rotary-cpt/game.js:291-294 | the folded difference lies in [0, π] and is either the absolute difference or 2π minus it |
| Angles.CircularDistance | rotary-cpt/game.js:406-413 | the shortest angular distance between pointer and window lies in [0, π] |
| Angles.CircularDistanceSymmetric | rotary-cpt/game.js:406-413 | the distance from pointer to window equals the distance from window to pointer |
| Angles.CircularDistanceTurns | rotary-cpt/game.js:553-559 | adding whole turns to either angle does not change the distance |
| Angles.DistanceOfOffset | rotary-cpt/game.js:304-312 | a window placed d radians (with abs(d) ≤ π) from a normalised pointer is exactly abs(d) away from it |
| Scheduler.TrialInterval | rotary-cpt/game.js:254 | the gap before the next trial lies in [2000, 4000) ms |
| Scheduler.SimulatedAngleStep | rotary-cpt/game.js:258 | advancing the simulated pointer by one interval at 3.6 rad/s gives the angle at the later time |
| Scheduler.ReachTime | rotary-cpt/game.js:297 | the travel time to any window lies in [0, 873) ms, so it never exceeds the 2500 ms maximum |
| Scheduler.SampleAngle | rotary-cpt/game.js:285 | a drawn window angle lies in [0, 2π) |
| Scheduler.SampleWindow | rotary-cpt/game.js:285-299 | one placement attempt returns the sampled angle and its travel time from the pointer |
| Scheduler.Direction | rotary-cpt/game.js:303 | the fallback direction is +1 exactly when the draw is below 0.5, and −1 otherwise |
| Scheduler.FallbackAngle | rotary-cpt/game.js:303-305 | the forced window angle lies in [0, 2π) |
| Scheduler.FallbackReach | rotary-cpt/game.js:304-312 | a window placed the minimum distance away, in either direction, is reached in exactly 200 ms |
| Scheduler.ForceMinimalDistance | rotary-cpt/game.js:302-312 | the forced window is placed one minimum distance from the pointer, in the drawn direction, and its travel time is exactly 200 ms |
| Scheduler.WindowDuration | rotary-cpt/game.js:330-337 | the window lasts at least 2000 ms, and at least reach + travel-through + 1500 + 800 ms, and equals one of the two |
| Scheduler.AppendWellScheduled | rotary-cpt/game.js:339-351 | appending a well-formed trial that starts one valid interval after the last keeps the schedule well formed |
| Scheduler.PlaceWindow | rotary-cpt/game.js:283-327 | the do-while placement loop ends after 1 to 21 draws with an acceptable travel time. Every draw it rejected was too close. It returns the last sampled angle, or after 20 attempts the fallback angle with a 200 ms reach |
| Scheduler.NewTrial | rotary-cpt/game.js:262-351 | one trial record has its id, starts at the current time, is go exactly when its draw is below 0.7, and has an acceptable window with the duration the formula gives |
| Scheduler.GenerateTrials | rotary-cpt/game.js:239-353 | the schedule's ids are its indices. Every trial is well formed. Start times are 2000–4000 ms apart and before the total time. The last trial (or, with none, time 0) lies less than one maximal interval of 4000 ms before the end |
| Scheduler.StartTimesSpaced | rotary-cpt/game.js:252-260 | n intervals apart, start times differ by 2000·n to 4000·n ms and strictly increase. Trial j starts within [2000·(j+1), 4000·(j+1)) |
| Scheduler.TrialCountBounds | rotary-cpt/game.js:252-260 | a session of T ms holds n trials with 2000·n < T < 4000·(n+1) |
| Timer.RemainingSeconds | rotary-cpt/game.js:642-643 | the remaining whole seconds round the non-negative remaining milliseconds up, and are zero exactly when nothing remains |
| Timer.DecimalString | rotary-cpt/game.js:631 | `String(n)` is a non-empty string of digits with no leading zero |
| Timer.ParseDecimalString | rotary-cpt/game.js:631 | reading back `String(n)` gives n |
| Timer.PadTwo | rotary-cpt/game.js:631 | `padStart(2, '0')` gives at least two characters, and PadTwoValue shows it keeps the value of a digit string |
| Timer.FormatTimer | rotary-cpt/game.js:628-632 | the text holds a colon exactly when at least a minute remains, three characters from the end. Every other character is a digit. Under a minute it is `String(seconds)`. Otherwise the part before the colon is `String(minutes)` and the two digits after it read as the seconds within the minute |
| Timer.FormatTimerRoundTrip | rotary-cpt/game.js:628-632 | the `m:ss` or plain-seconds text reads back as the number of seconds it shows |
| Statistics.Accuracy | rotary-cpt/game.js:697-699 | accuracy is 0 without trials, and otherwise the correct responses as a percentage of the trials |
| Statistics.Sum | rotary-cpt/game.js:691 | the `reduce` total of the values. SumBounds bounds it |
| Statistics.Mean | rotary-cpt/game.js:690-692 | the mean is 0 for no values. MeanBounds places it between any bounds of the values |
| Statistics.Square | rotary-cpt/game.js:694 | `Math.pow(x, 2)` is non-negative |
| Statistics.SumSquaredDeviations | rotary-cpt/game.js:694 | the sum of squared deviations from the mean is non-negative |
| Statistics.Rate | rotary-cpt/game.js:680-681 | the rate is 0 when there are no trials of the kind, otherwise the count divided by the trials. It is non-negative and at most 1 when the count does not exceed the trials |
| Statistics.ZScore | rotary-cpt/game.js:682-685 | a rate ≥ 1 maps to 3 and a rate ≤ 0 maps to −3 |
| Statistics.HitReactionTimes | rotary-cpt/game.js:687-689 | no RT is zero, there are no more RTs than entries, and a value is an RT exactly when some `hit` entry carries it as a non-zero reaction time |
| Statistics.HitReactionTimesCount | rotary-cpt/game.js:687-689 | each non-zero value occurs among the RTs exactly as many times as there are `hit` entries carrying it |
| Statistics.SumBounds | rotary-cpt/game.js:691 | a sum of n values in [lo, hi] lies in [n·lo, n·hi] |
| Statistics.MeanBounds | rotary-cpt/game.js:690-692 | when every RT lies in [lo, hi], so does their mean |
| Statistics.Variance | rotary-cpt/game.js:693-695 | the RT variance is non-negative |
| Statistics.ComputeResults | rotary-cpt/game.js:675-706 | the counters are passed through. The hit and false-alarm rates are the counts over the go and no-go trial totals (0 without trials). d′ is zHit − zFA. The mean RT is the mean of the hit RTs and the SD is `sqrt` of their population variance, which are 0 and √0 without RTs. Accuracy is 100·(hits + correct rejections) over the trial total (0 without trials) |
| Statistics.ZScoreReflection | rotary-cpt/game.js:682-685 | with an odd inverse error function, the z score of 1 − rate is minus the z score of the rate |
| Statistics.DPrimeReflection | rotary-cpt/game.js:686 | with an odd inverse error function, swapping and reflecting both rates keeps d′ |
| Trials.FindFirst | rotary-cpt/game.js:360-362 | `Array.prototype.find`: the index found satisfies the predicate and no earlier one does. None means no trial does |
| Trials.CountResponded | rotary-cpt/game.js:418-460 | the responded trials of a kind are never more than the trials of that kind |
| Trials.CountsOfSameOutcomes | rotary-cpt/game.js:551-563 | changing trials without touching kind or responded flag (an entry stamp) keeps both counts |
| Trials.CountAfterResponse | rotary-cpt/game.js:418-460 | marking one unresponded trial responded adds exactly one to the count of its kind and keeps the kind totals |
| Trials.CountKind | rotary-cpt/game.js:676-679 | the number of go (or no-go) trials, the length of the filtered list. CountKindSplit relates the two |
| Trials.CountKindSplit | rotary-cpt/game.js:676-679 | the go and no-go trials together are all the trials |
| Engine.Initial | rotary-cpt/game.js:2-49 | the initial state satisfies the invariant. It is not running, is a demo, and has no trials and no responses |
| Engine.Elapsed | rotary-cpt/game.js:231-236 | unpaused, elapsed time is wall time since the start minus the paused total. While paused it is frozen at its value when the pause began |
| Engine.ElapsedRate | rotary-cpt/game.js:231-236 | between two instants elapsed time grows by the wall time, or not at all while paused |
| Engine.Reset | rotary-cpt/game.js:90-121 | after a reset nothing runs or is paused, there are no trials, responses or scores, and mode and duration are kept. Every other field returns to its initial value: pointer at angle 0 with the base speed, no start time, no paused time, no frame or speed timer |
| Engine.Pause | rotary-cpt/game.js:182-197 | it does nothing unless running and not paused. Otherwise it pauses at `now`, which freezes elapsed time, and nothing else changes |
| Engine.EndGame | rotary-cpt/game.js:740-743 | the session stops and is no longer paused. Nothing else changes |
| Engine.Stop | rotary-cpt/game.js:214-228 | it does nothing unless running. Otherwise the session ends with any open pause folded into the paused total, so elapsed time stays what it was. Trials, log, counters and pointer are kept |
| Engine.Eligible | rotary-cpt/game.js:360-362 | a trial can be activated when it is unresponded and open at the elapsed time: started, and not yet past its duration |
| Engine.Upcoming | rotary-cpt/game.js:380-382 | a trial is upcoming when it opens after the elapsed time but within the next 100 ms |
| Engine.StartNextTrial | rotary-cpt/game.js:356-387 | only activation fields change, and only when running, unpaused and with no current trial. It activates the first eligible trial at `now`, or none if none is eligible. It arms a look-ahead in (0, 100] ms exactly when a trial opens that soon, timed to the first such trial in list order |
| Engine.EndTrialEarly | rotary-cpt/game.js:464-476 | with a current trial it clears the trial and its start and arms the 1000 ms restart; otherwise it does nothing |
| Engine.InWindow | rotary-cpt/game.js:406-416 | the pointer is in the window when its shortest circular distance to the window's centre is at most half the window's width |
| Engine.KeyPress | rotary-cpt/game.js:390-461 | a press scores only when running, unpaused, on the space bar, with an unresponded current trial. It then marks that trial responded, ends it early and arms the restart. Misses, correct rejections, clock, pointer, motion timers, mode and duration are untouched: only the trials, the log, hits, false alarms and the activation fields can change |
| Engine.PressInWindow | rotary-cpt/game.js:418-436 | the in-window go branch keeps the invariant and leaves the trial current; only the trials, the log and the hits change |
| Engine.PressOutside | rotary-cpt/game.js:437-444 | the out-of-window go branch keeps the invariant and leaves the trial current; only the trials and the hits change |
| Engine.PressNoGo | rotary-cpt/game.js:445-460 | the no-go branch keeps the invariant and leaves the trial current; only the trials, the log and the false alarms change |
| Engine.PressInWindowEffect | rotary-cpt/game.js:418-433 | an in-window go press adds one hit and no false alarm. It sets the response time from activation, and logs a `hit` with RT from window entry exactly when the entry was stamped |
| Engine.PressNoGoEffect | rotary-cpt/game.js:445-455 | a no-go press adds one false alarm, no hit, and a false-alarm entry with the latency from activation, which is also the response time |
| Engine.KeyPressHit | rotary-cpt/game.js:418-436 | a scoring press inside a go window ends the trial with one more hit, the response time, and a `hit` entry exactly when the entry was stamped |
| Engine.KeyPressOutside | rotary-cpt/game.js:437-444 | a scoring press outside a go window still counts a hit but logs nothing and leaves the response time unchanged |
| Engine.KeyPressFalseAlarm | rotary-cpt/game.js:445-460 | a scoring press on a no-go trial counts one false alarm and logs it with its latency |
| Engine.RespondedValid | rotary-cpt/game.js:418-460 | marking the current trial responded, with a matching log entry and counter, keeps the invariant |
| Engine.Draw | rotary-cpt/game.js:509-583 | without a current trial nothing happens. A trial past its duration (wall time since activation) expires: it is cleared, an unresponded go counts a miss, an unresponded no-go a correct rejection, and the restart is armed. Otherwise the first in-window frame stamps the entry time |
| Engine.DrawKeeps | rotary-cpt/game.js:509-583 | drawing never changes the log, the hits, the false alarms, the clock, the run flag or the duration |
| Engine.Stamp | rotary-cpt/game.js:561-563 | the entry stamp sets only the current trial's `pointerEntryTime` to `now` and keeps the invariant |
| Engine.Expire | rotary-cpt/game.js:565-578 | expiry clears the current trial and adds one miss or one correct rejection only for an unresponded trial |
| Engine.NewSpeed | rotary-cpt/game.js:651-652 | a new speed lies in [0.03, 0.09) |
| Engine.ChangeSpeed | rotary-cpt/game.js:650-654 | only speed fields change, and only once 3000 ms have passed since the last change |
| Engine.Move | rotary-cpt/game.js:657-662 | only the angle and the frame time change. The angle grows by speed × seconds × 60 when a previous frame exists, and never decreases for a later frame |
| Engine.Advance | rotary-cpt/game.js:650-662 | the motion part of a frame changes only the speed, the angle and their two timers, and sets the frame time to `now`. Trials, log, activation, all four counters, clock and mode are untouched |
| Engine.Step | rotary-cpt/game.js:650-665 | the motion, `startNextTrial` and `draw` part of a frame keeps the clock, the log, the hits and the false alarms |
| Engine.TimerText | rotary-cpt/game.js:646 | the demo's plain seconds and the full game's `m:ss` both read back as the remaining seconds |
| Engine.Tick | rotary-cpt/game.js:635-673 | a frame does nothing when not running or paused, and otherwise reports. It never scores a response and keeps the clock |
| Engine.TickFrame | rotary-cpt/game.js:635-673 | a running frame shows the remaining seconds. It ends the session exactly when elapsed time has reached the duration, and otherwise keeps it running |
| Engine.Resume | rotary-cpt/game.js:199-212 | it does nothing unless paused. Otherwise elapsed time continues from the value it had at `now` |
| Engine.Unpause | rotary-cpt/game.js:200-210 | the paused interval joins the paused total, so elapsed time continues from `now`. The frame and speed timers restart at `now`, and nothing else changes |
| Engine.Launch | rotary-cpt/game.js:124-161 | a started session runs with the given trials, the demo or full duration, no score or log, and elapsed time counted from `now`. The pointer starts at angle 0, where the trial generator's simulated pointer starts, with the base speed. The frame and speed timers are at `now`, and every other field is as initially |
| Engine.LaunchValid | rotary-cpt/game.js:124-161 | a session launched with a generated schedule satisfies the invariant |
| Engine.FirstFrameQuiet | rotary-cpt/game.js:136-140 | the first frame after starting activates nothing and arms nothing, since the first trial opens no earlier than 2000 ms |
| Engine.AdvanceAtStart | rotary-cpt/game.js:650-662 | a frame at the instant the motion timers were set moves nothing |
| Engine.NothingDueAtStart | rotary-cpt/game.js:356-387 | at elapsed time 0 no trial is eligible or within the 100 ms look-ahead |
| Engine.PauseResumeElapsed | rotary-cpt/game.js:182-236 | pausing at t1 and resuming at t2 subtracts exactly t2 − t1 from elapsed time afterwards |
| Engine.ResultsRates | rotary-cpt/game.js:680-681 | in any reachable state both rates are proportions in [0, 1] |
| Engine.MissCountedTwice | rotary-cpt/game.js:356-387 | expiry uses wall time but activation uses elapsed time, so after a long pause one go trial is activated again and counted as a miss twice |
| Game.Session.constructor | rotary-cpt/game.js:2-49 | a new session holds the initial state and satisfies the invariant |
| Game.Session.GetElapsed | rotary-cpt/game.js:231-236 | returns the elapsed time of the current state |
| Game.Session.Reset | rotary-cpt/game.js:90-121 | the fields become the reset state and satisfy the invariant |
| Game.Session.Start | rotary-cpt/game.js:124-161 | the session is launched with a freshly generated, well-scheduled schedule that covers it, and its first frame neither ends the session nor arms a timer |
| Game.Session.Pause | rotary-cpt/game.js:182-197 | the fields become the paused state |
| Game.Session.Resume | rotary-cpt/game.js:199-212 | the fields and the first frame are those of resuming |
| Game.Session.Stop | rotary-cpt/game.js:214-228 | the fields become the stopped state |
| Game.Session.EndGame | rotary-cpt/game.js:740-743 | the fields become the ended state |
| Game.Session.StartNextTrial | rotary-cpt/game.js:356-387 | the fields and the armed look-ahead are those of trial activation |
| Game.Session.KeyPress | rotary-cpt/game.js:390-461 | the fields and the armed restart are those that classifying the press gives |
| Game.Session.PressInWindow | rotary-cpt/game.js:418-433 | updating the object in place gives the in-window go transition |
| Game.Session.PressOutside | rotary-cpt/game.js:437-441 | updating the object in place gives the out-of-window go transition |
| Game.Session.PressNoGo | rotary-cpt/game.js:445-456 | updating the object in place gives the no-go transition |
| Game.Session.EndTrialEarly | rotary-cpt/game.js:464-476 | the fields and the armed restart are those of ending the trial early |
| Game.Session.Draw | rotary-cpt/game.js:509-583 | the fields and the armed restart are those of the expiry and entry logic |
| Game.Session.Stamp | rotary-cpt/game.js:561-563 | stamping in place gives the entry transition |
| Game.Session.Expire | rotary-cpt/game.js:565-578 | expiring in place gives the expiry transition |
| Game.Session.ChangeSpeed | rotary-cpt/game.js:650-654 | the fields become those of the speed change |
| Game.Session.Move | rotary-cpt/game.js:657-662 | the fields become those of the angle update |
| Game.Session.GameLoop | rotary-cpt/game.js:635-673 | the fields and the frame report are those of one frame |

## Left out

- The page is not modelled: the DOM, the canvas drawing, the instruction texts, `updateStats`, `showScreen`, the overlays, the results display and the listeners of `initGame`. None of them changes the engine state.
- Timers are not scheduled. `setTimeout` and `requestAnimationFrame` become explicit method calls. `StartNextTrial` returns the look-ahead delay it would arm. `EndTrialEarly`, `KeyPress`, `Draw` and a frame report return only a flag for the 1000 ms restart.
- Game.Session.Start: it returns no value for the 1000 ms `startNextTrial` that `startDemo` and `startFullGame` arm (rotary-cpt/game.js:136, 156). The caller runs it as `StartNextTrial(now + 1000)`.
- Engine.Unpause: `resumeGame` reads `Date.now()` three separate times (rotary-cpt/game.js:201, 209, 210). The model uses one `now` for the paused total and both timers.
- `Math.random()` is not called. Its values are parameters in [0, 1), and `generateTrials` reads them from a stream `draws`.
- `Date.now()` is a positive integer parameter `now`. `gameLoop` and `getElapsed` read the clock more than once for one frame; the model reads it once per frame.
- Engine.Launch: `startDemo` and `startFullGame` read `Date.now()` three separate times (rotary-cpt/game.js:130, 138, 139). The model uses one `now` for the start time and both timers.
- The distractor pointer is not modelled; it is purely visual. Neither are `currentTime`, `animationId` or the canvas fields, which the engine never reads.
- Arithmetic is on exact reals, not IEEE doubles. π is a decimal constant, not `Math.PI`.
- `Math.sqrt` and `inverseError` (rotary-cpt/game.js:760-770) are uninterpreted functions passed in as `Numerics`. The reflection lemmas assume only that the inverse error function is odd.
- The key event is a single flag, `isSpace`, standing for `event.code === 'Space' || event.key === ' '`. `preventDefault` is not modelled.
- `Game.Session` groups the fields of `gameState` into `Clock`, `Pointer` and `Tally` records. The state is the same; only the layout differs.
- Angles.Normalize is defined by the closed form `a − 2π·⌊a / 2π⌋`, not by the two `%` operations. Angles.NormalizeClosedForm proves the two equal.
- The fallback for a window more than 2500 ms away (rotary-cpt/game.js:313-323) is not modelled as a branch that runs. Scheduler.ReachTime proves it is never taken, and Scheduler.PlaceWindow asserts that branch unreachable.
- Game.Session.Start: the first frame runs with draw 0.0. That frame reads no draw, because the speed timer was just reset.
- No lemma states that every trial is settled exactly once. The source can count one unresponded trial twice (Engine.MissCountedTwice), so no such lemma would be true.
- Statistics.HitReactionTimesCount: fixes how often each RT occurs, not their order. The mean and the variance do not depend on the order.
