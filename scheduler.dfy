/** The trial scheduler (`generateTrials`): it walks a time cursor through the session,
    keeps a predicted pointer angle moving at the base speed, and places each window so that
    the predicted pointer reaches it no sooner than 200 ms. `Math.random()` is the stream
    `draws`, read in the order the source reads it. */
module Scheduler {
  import opened Wrappers
  import opened Angles
  import opened Trials

  /** `gameState.baseSpeed`: radians per frame at 60 frames per second. */
  const BaseSpeed: real := 0.06
  /** `baseSpeed * 60`: radians per second. */
  const PointerSpeedRadPerSec: real := 3.6

  const MinTrialInterval: real := 2000.0
  const MaxTrialInterval: real := 4000.0
  const BaseWindowDuration: real := 2000.0
  const GoProbability: real := 0.7
  /** `Math.PI / 4`, about 45 degrees. */
  const WindowSize: real := PI / 4.0
  const MinTimeToReach: real := 200.0
  const MaxTimeToReach: real := 2500.0
  /** `(minTimeToReach / 1000) * pointerSpeedRadPerSec` */
  const MinAngleDistance: real := 0.72
  /** `(maxTimeToReach / 1000) * pointerSpeedRadPerSec` */
  const MaxAngleDistance: real := 9.0
  const MaxAttempts: nat := 20
  const MinTimeInWindow: real := 1500.0
  const Buffer: real := 800.0

  /** A stream of `Math.random()` results. */
  ghost predicate IsDraws(draws: nat -> real)
  {
    forall i :: 0.0 <= draws(i) < 1.0
  }

  /** `minTrialInterval + Math.random() * (maxTrialInterval - minTrialInterval)` */
  function TrialInterval(r: real): (iv: real)
    requires 0.0 <= r < 1.0
    ensures MinTrialInterval <= iv < MaxTrialInterval
  {
    MinTrialInterval + r * (MaxTrialInterval - MinTrialInterval)
  }

  /** The predicted pointer angle after `t` ms at the base speed. */
  function SimulatedAngle(t: real): real
  {
    PointerSpeedRadPerSec * (t / 1000.0)
  }

  /** Advancing the prediction by an interval is predicting for the later time. */
  lemma SimulatedAngleStep(t: real, interval: real)
    ensures SimulatedAngle(t) + PointerSpeedRadPerSec * (interval / 1000.0) == SimulatedAngle(t + interval)
  {
  }

  /** The time for the pointer, from the normalised angle `pointer`, to cover the shortest
      circular distance to `window` at the base speed. It never exceeds 1000π/3.6 ms, so the
      `timeToReach > maxTimeToReach` fallback of the source can never be taken. */
  function ReachTime(pointer: real, window: real): (t: real)
    ensures 0.0 <= t < 873.0
    ensures t < MaxTimeToReach
  {
    (CircularDistance(pointer, window) / PointerSpeedRadPerSec) * 1000.0
  }

  /** The do-while condition of the placement loop, negated. */
  predicate Acceptable(timeToReach: real)
  {
    !(timeToReach < MinTimeToReach || timeToReach > MaxTimeToReach)
  }

  /** `Math.random() * Math.PI * 2` */
  function SampleAngle(r: real): (a: real)
    requires 0.0 <= r < 1.0
    ensures 0.0 <= a < TwoPi
  {
    r * PI * 2.0
  }

  /** The draw `r`, used as a window angle, gives one that the placement loop rejects. */
  predicate Rejected(pointer: real, r: real)
    requires 0.0 <= r < 1.0
  {
    !Acceptable(ReachTime(pointer, SampleAngle(r)))
  }

  /** `Math.random() < 0.5 ? 1 : -1` */
  function Direction(r: real): (d: real)
    ensures d == 1.0 || d == -1.0
    ensures d == 1.0 <==> r < 0.5
  {
    if r < 0.5 then 1.0 else -1.0
  }

  /** `(windowSize / pointerSpeedRadPerSec) * 1000`: the time to sweep through a window. */
  const TravelThroughTime: real := (WindowSize / PointerSpeedRadPerSec) * 1000.0

  /** `Math.max(baseWindowDuration, timeToReach + timeToTravelThrough + 1500 + 800)`: the
      window stays open at least 2000 ms and long enough to reach it, sweep it and answer. */
  function WindowDuration(timeToReach: real): (d: real)
    ensures d >= BaseWindowDuration
    ensures d >= timeToReach + TravelThroughTime + MinTimeInWindow + Buffer
    ensures d == BaseWindowDuration || d == timeToReach + TravelThroughTime + MinTimeInWindow + Buffer
  {
    var open := timeToReach + TravelThroughTime + MinTimeInWindow + Buffer;
    if BaseWindowDuration >= open then BaseWindowDuration else open
  }

  /** What every generated trial satisfies: position `i` as id, a start before the end
      of the session, untouched response fields, the fixed window size, a window angle in
      [0, 2π) reachable in [200, 2500] ms from the pointer predicted at the trial's start,
      and the window duration that reach time gives. */
  predicate WellFormedTrial(t: Trial, i: nat, totalTime: real)
  {
    && t.id == i
    && t.startTime < totalTime
    && !t.responded && t.responseTime.None? && t.pointerEntryTime.None?
    && t.windowSize == WindowSize
    && 0.0 <= t.windowAngle < TwoPi
    && var reach := ReachTime(Normalize(SimulatedAngle(t.startTime)), t.windowAngle);
       Acceptable(reach) && t.duration == WindowDuration(reach)
  }

  /** The whole schedule: well-formed trials whose first start and every later gap lie
      in [2000, 4000). */
  predicate WellScheduled(ts: seq<Trial>, totalTime: real)
  {
    && (forall i :: 0 <= i < |ts| ==> WellFormedTrial(ts[i], i, totalTime))
    && (|ts| > 0 ==> MinTrialInterval <= ts[0].startTime < MaxTrialInterval)
    && (forall i :: 0 < i < |ts| ==>
          MinTrialInterval <= ts[i].startTime - ts[i - 1].startTime < MaxTrialInterval)
  }

  lemma AppendWellScheduled(ts: seq<Trial>, t: Trial, totalTime: real)
    requires WellScheduled(ts, totalTime)
    requires WellFormedTrial(t, |ts|, totalTime)
    requires ts == [] ==> MinTrialInterval <= t.startTime < MaxTrialInterval
    requires ts != [] ==> MinTrialInterval <= t.startTime - ts[|ts| - 1].startTime < MaxTrialInterval
    ensures WellScheduled(ts + [t], totalTime)
  {
    var us := ts + [t];
    forall i | 0 <= i < |us| ensures WellFormedTrial(us[i], i, totalTime) {
      if i < |ts| { assert us[i] == ts[i]; }
    }
    forall i | 0 < i < |us| ensures MinTrialInterval <= us[i].startTime - us[i - 1].startTime < MaxTrialInterval {
      if i < |ts| { assert us[i] == ts[i] && us[i - 1] == ts[i - 1]; }
    }
  }

  /** The cursor stopped only because one more interval would have reached the end: the
      last trial (or, with none, the start) lies within one maximal interval of `totalTime`. */
  predicate CoversSession(ts: seq<Trial>, totalTime: real)
  {
    (totalTime <= 0.0 ==> ts == []) &&
    (0.0 < totalTime ==> (if ts == [] then 0.0 else ts[|ts| - 1].startTime) + MaxTrialInterval > totalTime)
  }

  /** The forced placement at exactly the minimal angular distance, on either side of the
      pointer, is reached in exactly 200 ms. */
  lemma FallbackReach(pointer: real, direction: real)
    requires 0.0 <= pointer < TwoPi
    requires direction == 1.0 || direction == -1.0
    ensures ReachTime(pointer, Normalize(pointer + direction * MinAngleDistance)) == MinTimeToReach
  {
    var d := direction * MinAngleDistance;
    assert Abs(d) == MinAngleDistance;
    DistanceOfOffset(pointer, d);
  }

  /** One attempt of the placement loop: a uniformly drawn window angle and the time the
      pointer, at the normalised angle `pointer`, needs to reach it. */
  method SampleWindow(pointer: real, r: real) returns (windowAngle: real, timeToReach: real)
    requires 0.0 <= pointer < TwoPi
    requires 0.0 <= r < 1.0
    ensures windowAngle == SampleAngle(r)
    ensures timeToReach == ReachTime(pointer, windowAngle)
  {
    windowAngle := r * PI * 2.0;
    var normalizedWindow := RemTwoPi(RemTwoPi(windowAngle) + TwoPi);
    NormalizeClosedForm(windowAngle);
    NormalizeIdempotent(windowAngle);
    NormalizeIdempotent(pointer);
    var angleDiff := Fold(pointer, normalizedWindow);
    timeToReach := (angleDiff / PointerSpeedRadPerSec) * 1000.0;
  }

  /** The forced window: exactly the minimal angular distance from the pointer, on the
      side the draw `r` picks. */
  function FallbackAngle(pointer: real, r: real): (a: real)
    ensures 0.0 <= a < TwoPi
  {
    Normalize(pointer + Direction(r) * MinAngleDistance)
  }

  /** The fallback after the last attempt: the window is put exactly the minimal
      angular distance away from the pointer, on the side the draw `r` picks. */
  method ForceMinimalDistance(pointer: real, r: real) returns (windowAngle: real, timeToReach: real)
    requires 0.0 <= pointer < TwoPi
    ensures windowAngle == FallbackAngle(pointer, r)
    ensures timeToReach == ReachTime(pointer, windowAngle) == MinTimeToReach
  {
    var direction := if r < 0.5 then 1.0 else -1.0;
    windowAngle := pointer + direction * MinAngleDistance;
    NormalizeClosedForm(windowAngle);
    windowAngle := RemTwoPi(RemTwoPi(windowAngle) + TwoPi);
    NormalizeIdempotent(windowAngle);
    NormalizeClosedForm(windowAngle);
    var adjustedNormalizedWindow := RemTwoPi(RemTwoPi(windowAngle) + TwoPi);
    var angleDiff := Fold(pointer, adjustedNormalizedWindow);
    timeToReach := (angleDiff / PointerSpeedRadPerSec) * 1000.0;
    NormalizeIdempotent(pointer);
    FallbackReach(pointer, direction);
  }

  /** The do-while placement loop (lines 283-327) for a pointer predicted at the normalised
      angle `pointer`, reading draws from position `k`; `next` is the first unread draw.
      At most 20 angles are sampled; the first acceptable one is kept, and if the twentieth
      is still too close the window is forced to exactly the minimal distance on a random side. */
  method PlaceWindow(pointer: real, draws: nat -> real, k: nat)
      returns (windowAngle: real, timeToReach: real, next: nat)
    requires 0.0 <= pointer < TwoPi
    requires IsDraws(draws)
    ensures k < next <= k + MaxAttempts + 1
    ensures 0.0 <= windowAngle < TwoPi
    ensures timeToReach == ReachTime(pointer, windowAngle) && Acceptable(timeToReach)
    ensures forall j :: k <= j < next - 1 ==> Rejected(pointer, draws(j))
    ensures next <= k + MaxAttempts ==> windowAngle == SampleAngle(draws(next - 1))
    ensures next == k + MaxAttempts + 1 ==>
              windowAngle == FallbackAngle(pointer, draws(next - 1)) &&
              timeToReach == MinTimeToReach
  {
    var attempts := 0;
    next := k;
    while true
      invariant 0 <= attempts < MaxAttempts
      invariant next == k + attempts
      invariant forall j :: k <= j < next ==> Rejected(pointer, draws(j))
      decreases MaxAttempts - attempts
    {
      windowAngle, timeToReach := SampleWindow(pointer, draws(next));
      next := next + 1;
      attempts := attempts + 1;
      if attempts >= MaxAttempts {
        if timeToReach < MinTimeToReach {
          windowAngle, timeToReach := ForceMinimalDistance(pointer, draws(next));
          next := next + 1;
        } else if timeToReach > MaxTimeToReach {
          assert false;
        }
        break;
      }
      if !(timeToReach < MinTimeToReach || timeToReach > MaxTimeToReach) {
        break;
      }
    }
  }

  /** One trial of `generateTrials`, placed at `currentTime` with the pointer predicted
      at `simulatedPointerAngle`: the go/no-go draw, then the window. */
  method NewTrial(trialId: nat, currentTime: real, simulatedPointerAngle: real, totalTime: real,
                  draws: nat -> real, k: nat)
      returns (trial: Trial, next: nat)
    requires IsDraws(draws)
    requires currentTime < totalTime && simulatedPointerAngle == SimulatedAngle(currentTime)
    ensures k < next
    ensures WellFormedTrial(trial, trialId, totalTime) && trial.startTime == currentTime
    ensures trial.isGoTrial <==> draws(k) < GoProbability
  {
    var isGoTrial := draws(k) < GoProbability;
    next := k + 1;
    var windowSize := PI / 4.0;
    NormalizeClosedForm(simulatedPointerAngle);
    var normalizedPointer := RemTwoPi(RemTwoPi(simulatedPointerAngle) + TwoPi);
    var windowAngle, timeToReach;
    windowAngle, timeToReach, next := PlaceWindow(normalizedPointer, draws, next);
    var timeToTravelThrough := (windowSize / PointerSpeedRadPerSec) * 1000.0;
    var open := timeToReach + timeToTravelThrough + MinTimeInWindow + Buffer;
    var windowDuration := if BaseWindowDuration >= open then BaseWindowDuration else open;
    trial := Trial(trialId, currentTime, windowDuration, isGoTrial, windowAngle, windowSize,
                   false, None, None);
    assert timeToTravelThrough == TravelThroughTime;
    assert windowDuration == WindowDuration(timeToReach);
  }

  /** `generateTrials(duration)`: the trials of a session of `totalTime` ms. */
  method GenerateTrials(totalTime: real, draws: nat -> real) returns (trials: seq<Trial>)
    requires IsDraws(draws)
    ensures WellScheduled(trials, totalTime)
    ensures CoversSession(trials, totalTime)
  {
    var currentTime := 0.0;
    var trialId: nat := 0;
    var simulatedPointerAngle := 0.0;
    var k: nat := 0;
    trials := [];
    while currentTime < totalTime
      invariant trialId == |trials|
      invariant simulatedPointerAngle == SimulatedAngle(currentTime)
      invariant WellScheduled(trials, totalTime)
      invariant trials == [] ==> currentTime == 0.0
      invariant trials != [] ==> currentTime == trials[|trials| - 1].startTime < totalTime
      decreases (totalTime - currentTime).Floor
    {
      var interval := MinTrialInterval + draws(k) * (MaxTrialInterval - MinTrialInterval);
      assert interval == TrialInterval(draws(k));
      k := k + 1;
      SimulatedAngleStep(currentTime, interval);
      currentTime := currentTime + interval;
      simulatedPointerAngle := simulatedPointerAngle + PointerSpeedRadPerSec * (interval / 1000.0);
      if currentTime >= totalTime {
        break;
      }
      var trial;
      trial, k := NewTrial(trialId, currentTime, simulatedPointerAngle, totalTime, draws, k);
      AppendWellScheduled(trials, trial, totalTime);
      trials := trials + [trial];
      trialId := trialId + 1;
    }
  }

  /** Start times grow by at least 2000 ms and less than 4000 ms per trial: the
      k-th trial (from 0) starts in [2000(k+1), 4000(k+1)), and later trials start later. */
  lemma {:induction false} StartTimesSpaced(ts: seq<Trial>, totalTime: real, i: nat, j: nat)
    requires WellScheduled(ts, totalTime)
    requires i <= j < |ts|
    ensures MinTrialInterval * ((j - i) as real) <= ts[j].startTime - ts[i].startTime
    ensures ts[j].startTime - ts[i].startTime <= MaxTrialInterval * ((j - i) as real)
    ensures i < j ==> ts[i].startTime < ts[j].startTime
    ensures MinTrialInterval * ((j + 1) as real) <= ts[j].startTime < MaxTrialInterval * ((j + 1) as real)
  {
    if j > 0 {
      if i < j {
        StartTimesSpaced(ts, totalTime, i, j - 1);
      } else {
        StartTimesSpaced(ts, totalTime, 0, j - 1);
      }
      assert MinTrialInterval <= ts[j].startTime - ts[j - 1].startTime < MaxTrialInterval;
    }
  }

  /** A session of `totalTime` ms holds fewer than `totalTime / 2000` trials, and more than
      `totalTime / 4000 - 1`. */
  lemma TrialCountBounds(ts: seq<Trial>, totalTime: real)
    requires WellScheduled(ts, totalTime) && CoversSession(ts, totalTime)
    requires 0.0 < totalTime
    ensures MinTrialInterval * (|ts| as real) < totalTime
    ensures totalTime < MaxTrialInterval * ((|ts| + 1) as real)
  {
    if ts != [] {
      var n := |ts| - 1;
      StartTimesSpaced(ts, totalTime, n, n);
      assert WellFormedTrial(ts[n], n, totalTime);
    }
  }
}
