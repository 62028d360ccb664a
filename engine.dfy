/** The session engine as transitions on an explicit state value: the pause-aware clock,
    trial activation, the response classifier, expiry and entry stamping, and the per-frame
    update. Each JavaScript handler becomes a function of the old state and of the event's
    `now` (and random draw); the timers it arms are returned instead of scheduled. */
module Engine {
  import opened Wrappers
  import opened Angles
  import opened Trials
  import opened Scheduler
  import opened Timer
  import Statistics

  const DemoDuration: int := 30000
  const FullGameDuration: int := 15 * 60 * 1000
  const SpeedChangeInterval: int := 3000
  /** How far ahead `startNextTrial` looks for a trial about to open. */
  const LookAhead: real := 100.0

  /** `gameState` without the canvas, the animation handle, the unused `currentTime` and the
      cosmetic distractor pointer. `currentTrial` is the position, in `trials`, of the trial
      object the source keeps a reference to. */
  datatype State = State(
    isRunning: bool,
    isDemo: bool,
    gameDuration: int,
    startTime: Option<Time>,
    isPaused: bool,
    totalPausedDuration: int,
    pauseStartTime: Option<Time>,
    pointerAngle: real,
    pointerSpeed: real,
    lastSpeedChange: Option<Time>,
    lastFrameTime: Option<Time>,
    currentTrial: Option<nat>,
    trials: seq<Trial>,
    trialStartTime: Option<Time>,
    responses: seq<Response>,
    hits: nat,
    misses: nat,
    falseAlarms: nat,
    correctRejections: nat)

  /** What one animation frame reports: the timer text, the delay of a look-ahead
      `startNextTrial` if one was armed, whether a 1000 ms `startNextTrial` was armed by an
      expiry, and whether the session ended on this frame. */
  datatype Frame = Frame(timer: string, lookAhead: Option<real>, nextTrialArmed: bool, ended: bool)

  /** The initial `gameState` object. */
  function Initial(): (r: State)
    ensures Valid(r) && !r.isRunning && r.isDemo && r.trials == [] && r.responses == []
  {
    State(false, true, DemoDuration, None, false, 0, None, 0.0, BaseSpeed, None, None,
          None, [], None, [], 0, 0, 0, 0)
  }

  /** JavaScript arithmetic reads a `null` timestamp as 0. */
  function OrZero(t: Option<Time>): int
  {
    if t.Some? then t.value else 0
  }

  /** Every entry of the log scores a distinct responded trial, `hit` entries go trials and
      `false_alarm` entries no-go trials. */
  ghost predicate LogMatches(rs: seq<Response>, ts: seq<Trial>)
  {
    && (forall k :: 0 <= k < |rs| ==>
          rs[k].trial < |ts| && ts[rs[k].trial].responded &&
          (rs[k].kind == Hit <==> ts[rs[k].trial].isGoTrial))
    && (forall k, l :: 0 <= k < l < |rs| ==> rs[k].trial != rs[l].trial)
  }

  /** The number of `false_alarm` entries in the log. */
  function FalseAlarmEntries(rs: seq<Response>): nat
  {
    if rs == [] then 0
    else FalseAlarmEntries(rs[..|rs| - 1]) + (if rs[|rs| - 1].kind == FalseAlarm then 1 else 0)
  }

  /** The session invariant: the trial bookkeeping, the score accounting, the pause-aware
      clock and the speed bounds are each consistent. */
  ghost predicate Valid(s: State)
  {
    TrialsIndexed(s) && ScoresAccounted(s) && ClockConsistent(s) && SpeedBounded(s)
  }

  /** Trial ids are positions, and a current trial is a position whose activation time is
      recorded (and only then is one recorded). */
  predicate TrialsIndexed(s: State)
  {
    && (forall i :: 0 <= i < |s.trials| ==> s.trials[i].id == i)
    && (s.currentTrial.Some? ==> s.currentTrial.value < |s.trials|)
    && (s.currentTrial.Some? <==> s.trialStartTime.Some?)
  }

  /** `hits` and `falseAlarms` count the responded go and no-go trials, every false alarm
      is logged, and the log matches the trials. */
  ghost predicate ScoresAccounted(s: State)
  {
    && s.hits == CountResponded(s.trials, true)
    && s.falseAlarms == CountResponded(s.trials, false)
    && s.falseAlarms == FalseAlarmEntries(s.responses)
    && LogMatches(s.responses, s.trials)
  }

  /** A pause is recorded exactly while paused, and only while running. */
  predicate ClockConsistent(s: State)
  {
    (s.isPaused <==> s.pauseStartTime.Some?) && (s.isPaused ==> s.isRunning)
  }

  /** The speed stays within half and one and a half times the base speed. */
  predicate SpeedBounded(s: State)
  {
    BaseSpeed * 0.5 <= s.pointerSpeed <= BaseSpeed * 1.5
  }

  /** A trial keeps its schedule; its responded flag and entry stamp are only ever set. */
  predicate TrialProgressed(t: Trial, u: Trial)
  {
    && u.id == t.id && u.startTime == t.startTime && u.duration == t.duration
    && u.isGoTrial == t.isGoTrial && u.windowAngle == t.windowAngle && u.windowSize == t.windowSize
    && (t.responded ==> u.responded)
    && (t.pointerEntryTime.Some? ==> u.pointerEntryTime == t.pointerEntryTime)
  }

  /** What an event other than a (re)start may do to the record of the session: trials
      keep their schedule, responded flags and entry stamps are only ever set, the log only
      grows and no counter decreases. */
  ghost predicate Progressed(s: State, r: State)
  {
    && |r.trials| == |s.trials|
    && (forall j :: 0 <= j < |s.trials| ==> TrialProgressed(s.trials[j], r.trials[j]))
    && s.responses <= r.responses
    && CountersGrew(s, r)
  }

  /** No counter decreases. */
  predicate CountersGrew(s: State, r: State)
  {
    && s.hits <= r.hits && s.misses <= r.misses
    && s.falseAlarms <= r.falseAlarms && s.correctRejections <= r.correctRejections
  }

  /** Replacing one trial by a progressed version of it progresses the list. */
  lemma UpdateProgressed(ts: seq<Trial>, i: nat, u: Trial)
    requires i < |ts| && TrialProgressed(ts[i], u)
    ensures forall j :: 0 <= j < |ts| ==> TrialProgressed(ts[j], ts[i := u][j])
  {
  }

  // ---------------------------------------------------------------- the clock

  /** `getElapsed()`: session time excluding every paused interval, the current one included. */
  function Elapsed(s: State, now: Time): (e: int)
    ensures !s.isPaused ==> e == now - OrZero(s.startTime) - s.totalPausedDuration
    ensures s.isPaused && s.pauseStartTime.Some? ==>
              e == s.pauseStartTime.value - OrZero(s.startTime) - s.totalPausedDuration
  {
    var paused := s.totalPausedDuration +
                  (if s.isPaused && s.pauseStartTime.Some? then now - s.pauseStartTime.value else 0);
    now - OrZero(s.startTime) - paused
  }

  /** Only the clock fields determine elapsed time. */
  predicate SameClock(s: State, r: State)
  {
    r.startTime == s.startTime && r.isPaused == s.isPaused &&
    r.totalPausedDuration == s.totalPausedDuration && r.pauseStartTime == s.pauseStartTime
  }

  /** While running the clock advances with wall time; while paused it stands still. */
  lemma ElapsedRate(s: State, t: Time, u: Time)
    requires Valid(s)
    ensures Elapsed(s, u) - Elapsed(s, t) == if s.isPaused then 0 else u - t
  {
  }

  /** `resetGame()` (state part): the session is cleared; demo flag and duration are kept. */
  function Reset(s: State): (r: State)
    ensures Valid(r)
    ensures !r.isRunning && !r.isPaused && r.trials == [] && r.responses == []
    ensures r.hits == 0 && r.misses == 0 && r.falseAlarms == 0 && r.correctRejections == 0
    ensures r.isDemo == s.isDemo && r.gameDuration == s.gameDuration
    ensures r == Initial().(isDemo := s.isDemo, gameDuration := s.gameDuration)
  {
    s.(isRunning := false, startTime := None, pointerAngle := 0.0, pointerSpeed := BaseSpeed,
       currentTrial := None, trials := [], trialStartTime := None, responses := [],
       hits := 0, misses := 0, falseAlarms := 0, correctRejections := 0,
       lastFrameTime := None, lastSpeedChange := None,
       isPaused := false, totalPausedDuration := 0, pauseStartTime := None)
  }

  /** `pauseGame()`: a no-op unless running and not paused; afterwards the clock is frozen
      at the value it had when the pause began. */
  function Pause(s: State, now: Time): (r: State)
    requires Valid(s)
    ensures Valid(r) && Progressed(s, r)
    ensures !(s.isRunning && !s.isPaused) ==> r == s
    ensures s.isRunning && !s.isPaused ==>
              r.isPaused && r.isRunning && forall t: Time :: Elapsed(r, t) == Elapsed(s, now)
    ensures s.isRunning && !s.isPaused ==> r == s.(isPaused := true, pauseStartTime := Some(now))
  {
    if !s.isRunning || s.isPaused then s
    else s.(isPaused := true, pauseStartTime := Some(now))
  }

  /** `endGameShowResults()` (state part). */
  function EndGame(s: State): (r: State)
    requires Valid(s)
    ensures Valid(r) && Progressed(s, r)
    ensures !r.isRunning && !r.isPaused && r.pauseStartTime.None?
    ensures r == s.(isRunning := false, isPaused := false, pauseStartTime := None)
  {
    s.(isRunning := false, isPaused := false, pauseStartTime := None)
  }

  /** `stopGame()`: a no-op unless running; a pause in progress is added to the paused
      total, so elapsed time stays what it was; the session ends. */
  function Stop(s: State, now: Time): (r: State)
    requires Valid(s)
    ensures Valid(r) && Progressed(s, r)
    ensures !s.isRunning ==> r == s
    ensures s.isRunning ==> !r.isRunning && !r.isPaused && r.pauseStartTime.None?
    ensures s.isRunning ==> Elapsed(r, now) == Elapsed(s, now)
    ensures s.isRunning ==>
              r == s.(isRunning := false, isPaused := false, pauseStartTime := None,
                      totalPausedDuration := r.totalPausedDuration)
  {
    if !s.isRunning then s
    else
      var s1 := s.(isRunning := false, isPaused := false);
      var s2 := if s1.pauseStartTime.Some?
                then s1.(totalPausedDuration := s1.totalPausedDuration + (now - s1.pauseStartTime.value),
                         pauseStartTime := None)
                else s1;
      EndGame(s2)
  }

  // ---------------------------------------------------------------- trial activation

  /** The search condition of `startNextTrial`: unresponded and open at `elapsed`. */
  predicate Eligible(t: Trial, elapsed: int)
  {
    !t.responded && t.startTime <= elapsed as real < t.startTime + t.duration
  }

  /** The look-ahead condition: opening within the next 100 ms. */
  predicate Upcoming(t: Trial, elapsed: int)
  {
    t.startTime > elapsed as real && t.startTime <= elapsed as real + LookAhead
  }

  /** `startNextTrial()`: returns the new state and the delay of the look-ahead call it arms.
      It does nothing when not running or paused, never replaces a current trial, activates
      the first eligible trial in list order, and arms a look-ahead in (0, 100] ms exactly
      when no trial is current and a trial opens within 100 ms. */
  function StartNextTrial(s: State, now: Time): (r: (State, Option<real>))
    requires Valid(s)
    ensures Valid(r.0) && Progressed(s, r.0)
    ensures r.0 == s.(currentTrial := r.0.currentTrial, trialStartTime := r.0.trialStartTime)
    ensures !s.isRunning || s.isPaused ==> r == (s, None)
    ensures s.currentTrial.Some? ==> r.0 == s && r.1.None?
    ensures r.0.currentTrial != s.currentTrial ==>
              var i := r.0.currentTrial.value;
              && s.currentTrial.None? && r.0.currentTrial.Some? && r.0.trialStartTime == Some(now)
              && Eligible(s.trials[i], Elapsed(s, now))
              && forall j :: 0 <= j < i ==> !Eligible(s.trials[j], Elapsed(s, now))
    ensures s.isRunning && !s.isPaused && r.0.currentTrial.None? ==>
              forall j :: 0 <= j < |s.trials| ==> !Eligible(s.trials[j], Elapsed(s, now))
    ensures r.1.Some? ==>
              && r.0.currentTrial.None? && 0.0 < r.1.value <= LookAhead
              && exists j :: 0 <= j < |s.trials| && s.trials[j].startTime == Elapsed(s, now) as real + r.1.value
                              && forall k :: 0 <= k < j ==> !Upcoming(s.trials[k], Elapsed(s, now))
    ensures s.isRunning && !s.isPaused && r.0.currentTrial.None? && r.1.None? ==>
              forall j :: 0 <= j < |s.trials| ==> !Upcoming(s.trials[j], Elapsed(s, now))
  {
    if !s.isRunning || s.isPaused then (s, None)
    else
      var elapsed := Elapsed(s, now);
      var nextTrial := FindFirst(s.trials, t => Eligible(t, elapsed));
      var s1 := if nextTrial.Some? && s.currentTrial.None?
                then s.(currentTrial := nextTrial, trialStartTime := Some(now))
                else s;
      if s1.currentTrial.None? then
        var upcomingTrial := FindFirst(s.trials, t => Upcoming(t, elapsed));
        if upcomingTrial.Some? then
          (s1, Some(s.trials[upcomingTrial.value].startTime - elapsed as real))
        else (s1, None)
      else (s1, None)
  }

  /** `endTrialEarly()`: clears the current trial and says whether a 1000 ms
      `startNextTrial` was armed (only when there was a current trial). */
  function EndTrialEarly(s: State): (r: (State, bool))
    ensures Valid(s) ==> Valid(r.0) && Progressed(s, r.0)
    ensures r.1 <==> s.currentTrial.Some?
    ensures s.currentTrial.Some? ==> r.0 == s.(currentTrial := None, trialStartTime := None)
    ensures s.currentTrial.None? ==> r.0 == s
  {
    if s.currentTrial.None? then (s, false)
    else (s.(currentTrial := None, trialStartTime := None), true)
  }

  // ---------------------------------------------------------------- the response classifier

  /** Whether the live pointer lies in the trial's window: the shortest circular distance
      to the window's centre is at most half its width. */
  predicate InWindow(pointerAngle: real, t: Trial)
  {
    CircularDistance(pointerAngle, t.windowAngle) <= t.windowSize / 2.0
  }

  /** The key press that scores the current trial, if `handleKeyPress` scores one. */
  predicate Scores(s: State, isSpace: bool)
  {
    s.isRunning && !s.isPaused && s.currentTrial.Some? && isSpace &&
    s.currentTrial.value < |s.trials| && !s.trials[s.currentTrial.value].responded
  }

  /** `handleKeyPress(event)` at time `now`; `isSpace` says whether the key is the space bar.
      Returns the new state and whether a 1000 ms `startNextTrial` was armed. */
  function KeyPress(s: State, now: Time, isSpace: bool): (r: (State, bool))
    requires Valid(s)
    ensures Valid(r.0) && Progressed(s, r.0)
    ensures !Scores(s, isSpace) ==> r == (s, false)
    ensures Scores(s, isSpace) ==>
              var i := s.currentTrial.value;
              && r.1 && r.0.currentTrial.None? && r.0.trialStartTime.None?
              && r.0.trials == s.trials[i := r.0.trials[i]]
              && r.0.trials[i] == s.trials[i].(responded := true, responseTime := r.0.trials[i].responseTime)
              && r.0.misses == s.misses && r.0.correctRejections == s.correctRejections
    ensures r.0.isRunning == s.isRunning && r.0.isPaused == s.isPaused && SameClock(s, r.0)
    ensures r.0.pointerAngle == s.pointerAngle && r.0.pointerSpeed == s.pointerSpeed
    ensures r.0 == s.(trials := r.0.trials, responses := r.0.responses, hits := r.0.hits,
                      falseAlarms := r.0.falseAlarms, currentTrial := r.0.currentTrial,
                      trialStartTime := r.0.trialStartTime)
  {
    if !s.isRunning || s.isPaused || s.currentTrial.None? then (s, false)
    else if !isSpace then (s, false)
    else
      var pressTime := now;
      var i := s.currentTrial.value;
      var trial := s.trials[i];
      var isInWindow := InWindow(s.pointerAngle, trial);
      if trial.isGoTrial then
        if isInWindow && !trial.responded then EndTrialEarly(PressInWindow(s, now))
        else if !isInWindow && !trial.responded then EndTrialEarly(PressOutside(s))
        else (s, false)
      else if !trial.responded then EndTrialEarly(PressNoGo(s, now))
      else (s, false)
  }

  /** The press of a go trial inside the window: the trial is marked responded with its
      response time from activation, a `hit` is logged with its reaction time from window
      entry if the entry was stamped, and `hits` rises. */
  function PressInWindow(s: State, now: Time): (r: State)
    requires Valid(s) && s.currentTrial.Some?
    requires !s.trials[s.currentTrial.value].responded && s.trials[s.currentTrial.value].isGoTrial
    ensures Valid(r) && Progressed(s, r) && r.currentTrial == s.currentTrial
    ensures r == s.(trials := r.trials, responses := r.responses, hits := r.hits)
  {
    var pressTime := now;
    var i := s.currentTrial.value;
    var trial := s.trials[i];
    var answered := trial.(responded := true, responseTime := Some(pressTime - OrZero(s.trialStartTime)));
    var entry := if trial.pointerEntryTime.Some?
                 then Some(Response(Hit, pressTime - trial.pointerEntryTime.value, trial.id))
                 else None;
    RespondedValid(s, answered, entry);
    s.(trials := s.trials[i := answered], responses := s.responses + Entries(entry), hits := s.hits + 1)
  }

  /** The press of a go trial outside the window: still counted in `hits`, with nothing
      logged and no response time. */
  function PressOutside(s: State): (r: State)
    requires Valid(s) && s.currentTrial.Some?
    requires !s.trials[s.currentTrial.value].responded && s.trials[s.currentTrial.value].isGoTrial
    ensures Valid(r) && Progressed(s, r) && r.currentTrial == s.currentTrial
    ensures r == s.(trials := r.trials, hits := r.hits)
  {
    var i := s.currentTrial.value;
    var answered := s.trials[i].(responded := true);
    RespondedValid(s, answered, None);
    assert s.responses + Entries(None) == s.responses;
    s.(trials := s.trials[i := answered], hits := s.hits + 1)
  }

  /** The press of a no-go trial: the trial is marked responded, a `false_alarm` is logged
      with its latency from activation, and `falseAlarms` rises. */
  function PressNoGo(s: State, now: Time): (r: State)
    requires Valid(s) && s.currentTrial.Some?
    requires !s.trials[s.currentTrial.value].responded && !s.trials[s.currentTrial.value].isGoTrial
    ensures Valid(r) && Progressed(s, r) && r.currentTrial == s.currentTrial
    ensures r == s.(trials := r.trials, responses := r.responses, falseAlarms := r.falseAlarms)
  {
    var pressTime := now;
    var i := s.currentTrial.value;
    var trial := s.trials[i];
    var answered := trial.(responded := true, responseTime := Some(pressTime - OrZero(s.trialStartTime)));
    var entry := Response(FalseAlarm, pressTime - OrZero(s.trialStartTime), trial.id);
    RespondedValid(s, answered, Some(entry));
    assert s.responses + [entry] == s.responses + Entries(Some(entry));
    s.(trials := s.trials[i := answered], responses := s.responses + [entry], falseAlarms := s.falseAlarms + 1)
  }

  /** A press on a go trial with the pointer inside the window is a hit; it is logged,
      with its reaction time measured from window entry, only if the entry was stamped. */
  lemma KeyPressHit(s: State, now: Time)
    requires Valid(s) && Scores(s, true)
    requires s.trials[s.currentTrial.value].isGoTrial && InWindow(s.pointerAngle, s.trials[s.currentTrial.value])
    ensures var t := s.trials[s.currentTrial.value];
            var r := KeyPress(s, now, true).0;
            && r.hits == s.hits + 1 && r.falseAlarms == s.falseAlarms
            && r.trials[s.currentTrial.value].responseTime == Some(now - OrZero(s.trialStartTime))
            && r.responses ==
                 (if t.pointerEntryTime.Some? then s.responses + [Response(Hit, now - t.pointerEntryTime.value, s.currentTrial.value)]
                  else s.responses)
  {
    assert KeyPress(s, now, true).0 == EndTrialEarly(PressInWindow(s, now)).0;
    PressInWindowEffect(s, now);
  }

  /** What the in-window go branch records: the hit, its response time and, if the entry
      was stamped, its log entry. */
  lemma PressInWindowEffect(s: State, now: Time)
    requires Valid(s) && s.currentTrial.Some?
    requires !s.trials[s.currentTrial.value].responded && s.trials[s.currentTrial.value].isGoTrial
    ensures var t := s.trials[s.currentTrial.value];
            var r := PressInWindow(s, now);
            && r.hits == s.hits + 1 && r.falseAlarms == s.falseAlarms
            && r.trials[s.currentTrial.value].responseTime == Some(now - OrZero(s.trialStartTime))
            && r.responses ==
                 (if t.pointerEntryTime.Some? then s.responses + [Response(Hit, now - t.pointerEntryTime.value, s.currentTrial.value)]
                  else s.responses)
  {
  }

  /** A press on a go trial with the pointer outside the window still counts as a hit,
      but nothing is logged and the response time stays unset. */
  lemma KeyPressOutside(s: State, now: Time)
    requires Valid(s) && Scores(s, true)
    requires s.trials[s.currentTrial.value].isGoTrial && !InWindow(s.pointerAngle, s.trials[s.currentTrial.value])
    ensures var t := s.trials[s.currentTrial.value];
            var r := KeyPress(s, now, true).0;
            && r.hits == s.hits + 1 && r.falseAlarms == s.falseAlarms
            && r.trials[s.currentTrial.value].responseTime == t.responseTime
            && r.responses == s.responses
  {
    assert KeyPress(s, now, true).0 == EndTrialEarly(PressOutside(s)).0;
  }

  /** A press on a no-go trial is a false alarm, logged with its latency from activation. */
  lemma KeyPressFalseAlarm(s: State, now: Time)
    requires Valid(s) && Scores(s, true)
    requires !s.trials[s.currentTrial.value].isGoTrial
    ensures var t := s.trials[s.currentTrial.value];
            var press := now - OrZero(s.trialStartTime);
            var r := KeyPress(s, now, true).0;
            && r.hits == s.hits && r.falseAlarms == s.falseAlarms + 1
            && r.trials[s.currentTrial.value].responseTime == Some(press)
            && r.responses == s.responses + [Response(FalseAlarm, press, s.currentTrial.value)]
  {
    assert KeyPress(s, now, true).0 == EndTrialEarly(PressNoGo(s, now)).0;
    PressNoGoEffect(s, now);
  }

  /** What the no-go branch records: the false alarm, its response time and its log entry. */
  lemma PressNoGoEffect(s: State, now: Time)
    requires Valid(s) && s.currentTrial.Some?
    requires !s.trials[s.currentTrial.value].responded && !s.trials[s.currentTrial.value].isGoTrial
    ensures var press := now - OrZero(s.trialStartTime);
            var r := PressNoGo(s, now);
            && r.hits == s.hits && r.falseAlarms == s.falseAlarms + 1
            && r.trials[s.currentTrial.value].responseTime == Some(press)
            && r.responses == s.responses + [Response(FalseAlarm, press, s.currentTrial.value)]
  {
  }

  /** The log entries an optional entry contributes. */
  function Entries(entry: Option<Response>): seq<Response>
  {
    if entry.Some? then [entry.value] else []
  }

  /** Logging an entry for a trial that had no entry yet keeps the log matched to the
      trials once that trial is marked responded. */
  lemma LogAfterResponse(rs: seq<Response>, ts: seq<Trial>, i: nat, u: Trial, entry: Option<Response>)
    requires LogMatches(rs, ts) && i < |ts| && !ts[i].responded
    requires u.responded && u.isGoTrial == ts[i].isGoTrial
    requires entry.Some? ==> entry.value.trial == i && (entry.value.kind == Hit <==> u.isGoTrial)
    ensures LogMatches(rs + Entries(entry), ts[i := u])
  {
    forall k | 0 <= k < |rs| ensures rs[k].trial != i {
      assert ts[rs[k].trial].responded;
    }
  }

  lemma FalseAlarmEntriesAppend(rs: seq<Response>, entry: Option<Response>)
    ensures FalseAlarmEntries(rs + Entries(entry)) ==
            FalseAlarmEntries(rs) + (if entry.Some? && entry.value.kind == FalseAlarm then 1 else 0)
  {
    if entry.Some? {
      assert (rs + [entry.value])[..|rs|] == rs;
    } else {
      assert rs + [] == rs;
    }
  }

  /** Scoring the current trial, with at most one log entry for it (always one for a
      no-go trial), keeps the invariant once the trial is cleared. */
  lemma RespondedValid(s: State, answered: Trial, entry: Option<Response>)
    requires Valid(s) && s.currentTrial.Some?
    requires !s.trials[s.currentTrial.value].responded
    requires answered == s.trials[s.currentTrial.value].(responded := true, responseTime := answered.responseTime)
    requires entry.Some? ==> entry.value.trial == s.currentTrial.value && (entry.value.kind == Hit <==> answered.isGoTrial)
    requires !answered.isGoTrial ==> entry.Some?
    ensures var i := s.currentTrial.value;
            var r := s.(trials := s.trials[i := answered], responses := s.responses + Entries(entry),
                        hits := s.hits + (if answered.isGoTrial then 1 else 0),
                        falseAlarms := s.falseAlarms + (if answered.isGoTrial then 0 else 1));
            Valid(r) && Progressed(s, r)
  {
    var i := s.currentTrial.value;
    var ts := s.trials[i := answered];
    var r := s.(trials := ts, responses := s.responses + Entries(entry),
                hits := s.hits + (if answered.isGoTrial then 1 else 0),
                falseAlarms := s.falseAlarms + (if answered.isGoTrial then 0 else 1));
    CountAfterResponse(s.trials, i, answered, true);
    CountAfterResponse(s.trials, i, answered, false);
    assert r.hits == CountResponded(ts, true);
    assert r.falseAlarms == CountResponded(ts, false);
    LogAfterResponse(s.responses, s.trials, i, answered, entry);
    FalseAlarmEntriesAppend(s.responses, entry);
    assert r.falseAlarms == FalseAlarmEntries(r.responses);
    assert forall j :: 0 <= j < |ts| ==> ts[j].id == j;
    UpdateProgressed(s.trials, i, answered);
    assert s.responses <= r.responses;
  }

  // ---------------------------------------------------------------- expiry and entry

  /** The expiry and entry part of `draw()`: returns the new state and whether a 1000 ms
      `startNextTrial` was armed. The current trial expires once `duration` ms of wall time
      (paused time included) have passed since its activation; an unresponded go trial then
      counts a miss and an unresponded no-go trial a correct rejection. Before that, the
      first frame that finds the live pointer within half a window of the centre stamps
      `pointerEntryTime`, once. */
  function Draw(s: State, now: Time): (r: (State, bool))
    requires Valid(s)
    ensures Valid(r.0) && Progressed(s, r.0)
    ensures s.currentTrial.None? ==> r == (s, false)
    ensures s.currentTrial.Some? ==>
              var i := s.currentTrial.value;
              var t := s.trials[i];
              var expired := !(((now - OrZero(s.trialStartTime)) as real) < t.duration);
              && (r.1 <==> expired)
              && (expired ==>
                    && r.0 == s.(currentTrial := None, trialStartTime := None,
                                 misses := r.0.misses, correctRejections := r.0.correctRejections)
                    && r.0.misses == s.misses + (if t.isGoTrial && !t.responded then 1 else 0)
                    && r.0.correctRejections == s.correctRejections + (if !t.isGoTrial && !t.responded then 1 else 0))
              && (!expired ==>
                    var stamp := t.pointerEntryTime.None? && InWindow(s.pointerAngle, t);
                    r.0 == s.(trials := s.trials[i := if stamp then t.(pointerEntryTime := Some(now)) else t]))
  {
    if s.currentTrial.None? then (s, false)
    else
      var i := s.currentTrial.value;
      var trial := s.trials[i];
      var elapsed := now - OrZero(s.trialStartTime);
      if (elapsed as real) < trial.duration then
        if trial.pointerEntryTime.None? && InWindow(s.pointerAngle, trial) then
          (Stamp(s, now), false)
        else (s, false)
      else (Expire(s), true)
  }

  /** The logic of `draw()` touches neither the clock nor the responses and scores. */
  lemma DrawKeeps(s: State, now: Time)
    requires Valid(s)
    ensures var r := Draw(s, now).0;
            && r.responses == s.responses && r.hits == s.hits && r.falseAlarms == s.falseAlarms
            && SameClock(s, r) && r.isRunning == s.isRunning && r.gameDuration == s.gameDuration
  {
  }

  /** The entry stamp of `draw()`: the current trial records `now` as the moment the
      pointer entered its window, and nothing else changes. */
  function Stamp(s: State, now: Time): (r: State)
    requires Valid(s) && s.currentTrial.Some?
    requires s.trials[s.currentTrial.value].pointerEntryTime.None?
    ensures Valid(r) && Progressed(s, r)
    ensures var i := s.currentTrial.value;
            r == s.(trials := s.trials[i := s.trials[i].(pointerEntryTime := Some(now))])
  {
    var i := s.currentTrial.value;
    var ts := s.trials[i := s.trials[i].(pointerEntryTime := Some(now))];
    assert SameOutcomes(s.trials, ts);
    CountsOfSameOutcomes(s.trials, ts, true);
    CountsOfSameOutcomes(s.trials, ts, false);
    assert LogMatches(s.responses, ts);
    UpdateProgressed(s.trials, i, ts[i]);
    s.(trials := ts)
  }

  /** The expiry of `draw()`: the current trial is retired, counting a miss if it is an
      unresponded go trial and a correct rejection if it is an unresponded no-go trial. */
  function Expire(s: State): (r: State)
    requires Valid(s) && s.currentTrial.Some?
    ensures Valid(r) && Progressed(s, r)
    ensures var t := s.trials[s.currentTrial.value];
            && r == s.(currentTrial := None, trialStartTime := None,
                       misses := r.misses, correctRejections := r.correctRejections)
            && r.misses == s.misses + (if t.isGoTrial && !t.responded then 1 else 0)
            && r.correctRejections == s.correctRejections + (if !t.isGoTrial && !t.responded then 1 else 0)
  {
    var trial := s.trials[s.currentTrial.value];
    var s1 := if trial.isGoTrial && !trial.responded then s.(misses := s.misses + 1)
              else if !trial.isGoTrial && !trial.responded then s.(correctRejections := s.correctRejections + 1)
              else s;
    s1.(currentTrial := None, trialStartTime := None)
  }

  // ---------------------------------------------------------------- the frame

  /** `gameState.baseSpeed * (0.5 + Math.random() * 1.0)` */
  function NewSpeed(draw: real): (v: real)
    requires 0.0 <= draw < 1.0
    ensures BaseSpeed * 0.5 <= v < BaseSpeed * 1.5
  {
    BaseSpeed * (0.5 + draw * 1.0)
  }

  /** Changing only the pointer's motion, with the speed kept in range, keeps the
      invariant and the record of the session. */
  lemma MotionOnly(s: State, r: State)
    requires Valid(s)
    requires r == s.(pointerSpeed := r.pointerSpeed, lastSpeedChange := r.lastSpeedChange,
                     pointerAngle := r.pointerAngle, lastFrameTime := r.lastFrameTime)
    requires BaseSpeed * 0.5 <= r.pointerSpeed <= BaseSpeed * 1.5
    ensures Valid(r) && Progressed(s, r) && SameClock(s, r)
  {
  }

  /** The speed change of `gameLoop()`: every 3000 ms a new speed is drawn. */
  function ChangeSpeed(s: State, now: Time, draw: real): (r: State)
    requires Valid(s) && 0.0 <= draw < 1.0
    ensures Valid(r) && Progressed(s, r) && SameClock(s, r)
    ensures r == s.(pointerSpeed := r.pointerSpeed, lastSpeedChange := r.lastSpeedChange)
    ensures s.lastSpeedChange.Some? && now - s.lastSpeedChange.value >= SpeedChangeInterval ==>
              r.pointerSpeed == NewSpeed(draw) && r.lastSpeedChange == Some(now)
    ensures !(s.lastSpeedChange.Some? && now - s.lastSpeedChange.value >= SpeedChangeInterval) ==> r == s
  {
    if s.lastSpeedChange.Some? && now - s.lastSpeedChange.value >= SpeedChangeInterval then
      var r := s.(pointerSpeed := NewSpeed(draw), lastSpeedChange := Some(now));
      MotionOnly(s, r);
      r
    else s
  }

  /** The angle update of `gameLoop()`: the angle grows by speed times elapsed frame time
      in seconds times 60, and the frame time is recorded. */
  function Move(s: State, now: Time): (r: State)
    requires Valid(s)
    ensures Valid(r) && Progressed(s, r) && SameClock(s, r)
    ensures r == s.(pointerAngle := r.pointerAngle, lastFrameTime := Some(now))
    ensures s.lastFrameTime.Some? ==>
              r.pointerAngle == s.pointerAngle + s.pointerSpeed * (((now - s.lastFrameTime.value) as real) / 1000.0) * 60.0
    ensures s.lastFrameTime.None? ==> r.pointerAngle == s.pointerAngle
    ensures s.lastFrameTime.Some? && s.lastFrameTime.value <= now ==> r.pointerAngle >= s.pointerAngle
  {
    var s1 := if s.lastFrameTime.Some?
              then
                var deltaTime := ((now - s.lastFrameTime.value) as real) / 1000.0;
                NonNegativeStep(s.pointerSpeed, deltaTime);
                s.(pointerAngle := s.pointerAngle + s.pointerSpeed * deltaTime * 60.0)
              else s;
    var r := s1.(lastFrameTime := Some(now));
    MotionOnly(s, r);
    r
  }

  /** The speed and angle update of `gameLoop()`. */
  function Advance(s: State, now: Time, draw: real): (r: State)
    requires Valid(s) && 0.0 <= draw < 1.0
    ensures Valid(r) && Progressed(s, r) && SameClock(s, r)
    ensures r.trials == s.trials && r.responses == s.responses && r.currentTrial == s.currentTrial
    ensures r.trialStartTime == s.trialStartTime && r.isRunning == s.isRunning
    ensures r.hits == s.hits && r.falseAlarms == s.falseAlarms
    ensures r.gameDuration == s.gameDuration && r.isDemo == s.isDemo
    ensures r == s.(pointerSpeed := r.pointerSpeed, lastSpeedChange := r.lastSpeedChange,
                    pointerAngle := r.pointerAngle, lastFrameTime := Some(now))
  {
    var s1 := ChangeSpeed(s, now, draw);
    var r := Move(s1, now);
    ProgressedTrans(s, s1, r);
    r
  }

  lemma ProgressedTrans(a: State, b: State, c: State)
    requires Progressed(a, b) && Progressed(b, c)
    ensures Progressed(a, c)
  {
  }

  lemma NonNegativeStep(speed: real, delta: real)
    requires 0.0 < speed
    ensures 0.0 <= delta ==> 0.0 <= speed * delta * 60.0
  {
    if 0.0 < delta {
      Statistics.PositiveProduct(speed, delta);
    }
  }

  /** The timer shown by a frame: plain seconds in the demo, `formatTimer` otherwise. */
  function TimerText(isDemo: bool, remainingSec: nat): (text: string)
    ensures ParseTimer(text) == Some(remainingSec)
  {
    if isDemo then DecimalParsesAsTimer(remainingSec); DecimalString(remainingSec)
    else FormatTimerRoundTrip(remainingSec); FormatTimer(remainingSec)
  }

  /** A plain decimal string reads back as that many seconds. */
  lemma DecimalParsesAsTimer(n: nat)
    ensures ParseTimer(DecimalString(n)) == Some(n)
  {
    ParseDecimalString(n);
  }

  /** `gameLoop()` at time `now`, with `draw` the speed multiplier's random draw: a no-op
      when not running or paused; otherwise it updates speed and angle, runs
      `startNextTrial` and the logic of `draw`, and ends the session once elapsed time has
      reached the duration. A frame never scores a response. */
  function Tick(s: State, now: Time, draw: real): (r: (State, Option<Frame>))
    requires Valid(s) && 0.0 <= draw < 1.0
    ensures Valid(r.0) && Progressed(s, r.0)
    ensures !s.isRunning || s.isPaused ==> r == (s, None)
    ensures s.isRunning && !s.isPaused ==> r.1.Some?
    ensures r.0.responses == s.responses && r.0.hits == s.hits && r.0.falseAlarms == s.falseAlarms
    ensures SameClock(s, r.0)
  {
    if !s.isRunning || s.isPaused then (s, None)
    else
      var elapsed := Elapsed(s, now);
      var remainingSec := RemainingSeconds(s.gameDuration, elapsed);
      var timer := TimerText(s.isDemo, remainingSec);
      var (s5, lookAhead, armed) := Step(s, now, draw);
      if elapsed >= s.gameDuration then
        var ended := EndGame(s5);
        ProgressedTrans(s, s5, ended);
        (ended, Some(Frame(timer, lookAhead, armed, true)))
      else (s5, Some(Frame(timer, lookAhead, armed, false)))
  }

  /** The state updates of a running frame: speed and angle, then `startNextTrial`, then
      the logic of `draw`. The clock, the responses and the scores are untouched. */
  function Step(s: State, now: Time, draw: real): (r: (State, Option<real>, bool))
    requires Valid(s) && 0.0 <= draw < 1.0
    ensures Valid(r.0) && Progressed(s, r.0) && SameClock(s, r.0)
    ensures r.0.responses == s.responses && r.0.hits == s.hits && r.0.falseAlarms == s.falseAlarms
    ensures r.0.isRunning == s.isRunning && r.0.gameDuration == s.gameDuration
  {
    var s3 := Advance(s, now, draw);
    var (s4, lookAhead) := StartNextTrial(s3, now);
    var (s5, armed) := Draw(s4, now);
    DrawKeeps(s4, now);
    ProgressedTrans(s, s3, s4);
    ProgressedTrans(s, s4, s5);
    (s5, lookAhead, armed)
  }

  /** A running frame shows the remaining whole seconds and ends the session exactly when
      elapsed time has reached the duration. */
  lemma TickFrame(s: State, now: Time, draw: real)
    requires Valid(s) && 0.0 <= draw < 1.0
    requires s.isRunning && !s.isPaused
    ensures var r := Tick(s, now, draw);
            && r.1.Some?
            && ParseTimer(r.1.value.timer) == Some(RemainingSeconds(s.gameDuration, Elapsed(s, now)))
            && (r.1.value.ended <==> Elapsed(s, now) >= s.gameDuration)
            && (r.1.value.ended ==> !r.0.isRunning)
            && (!r.1.value.ended ==> r.0.isRunning && !r.0.isPaused)
  {
  }

  // ---------------------------------------------------------------- starting and resuming

  /** `resumeGame()` with the frame it runs at once: a no-op unless running and paused; the
      paused interval joins the paused total, so elapsed time resumes from the value it had
      when the pause began. */
  function Resume(s: State, now: Time, draw: real): (r: (State, Option<Frame>))
    requires Valid(s) && 0.0 <= draw < 1.0
    ensures Valid(r.0) && Progressed(s, r.0)
    ensures !(s.isRunning && s.isPaused) ==> r == (s, None)
    ensures s.isRunning && s.isPaused ==>
              !r.0.isPaused && r.1.Some? && forall t: Time :: Elapsed(r.0, t) == Elapsed(s, now) + (t - now)
  {
    if !s.isRunning || !s.isPaused then (s, None)
    else Tick(Unpause(s, now), now, draw)
  }

  /** The state part of `resumeGame()`: the paused interval joins the paused total, and the
      frame and speed timers restart at `now`. */
  function Unpause(s: State, now: Time): (r: State)
    requires Valid(s) && s.isRunning && s.isPaused
    ensures Valid(r) && Progressed(s, r)
    ensures r.isRunning && !r.isPaused
    ensures forall t: Time :: Elapsed(r, t) == Elapsed(s, now) + (t - now)
    ensures r == s.(isPaused := false, pauseStartTime := None,
                    totalPausedDuration := r.totalPausedDuration,
                    lastFrameTime := Some(now), lastSpeedChange := Some(now))
  {
    s.(totalPausedDuration := s.totalPausedDuration + (now - OrZero(s.pauseStartTime)),
       isPaused := false, pauseStartTime := None,
       lastFrameTime := Some(now), lastSpeedChange := Some(now))
  }

  /** `startDemo()` / `startFullGame()` up to the first frame: reset, then a running session
      of 30 s or 15 min whose trials are `trials` (the output of `generateTrials`), with the
      clock started and the frame and speed timers at `now`. */
  function Launch(s: State, now: Time, isDemo: bool, trials: seq<Trial>): (r: State)
    ensures r.isRunning && !r.isPaused && r.isDemo == isDemo && r.trials == trials
    ensures r.gameDuration == if isDemo then DemoDuration else FullGameDuration
    ensures r.hits == 0 && r.misses == 0 && r.falseAlarms == 0 && r.correctRejections == 0
    ensures r.responses == [] && r.currentTrial.None?
    ensures forall t: Time :: Elapsed(r, t) == t - now
    ensures r.pointerAngle == SimulatedAngle(0.0) && r.pointerSpeed == BaseSpeed
    ensures r == Initial().(isRunning := true, isDemo := isDemo, gameDuration := r.gameDuration,
                            startTime := Some(now), trials := trials,
                            lastFrameTime := Some(now), lastSpeedChange := Some(now))
  {
    Reset(s).(isRunning := true, isDemo := isDemo,
              gameDuration := if isDemo then DemoDuration else FullGameDuration,
              startTime := Some(now), trials := trials,
              lastFrameTime := Some(now), lastSpeedChange := Some(now))
  }

  /** A launched session with a generated schedule satisfies the invariant. */
  lemma LaunchValid(s: State, now: Time, isDemo: bool, trials: seq<Trial>)
    requires WellScheduled(trials, (if isDemo then DemoDuration else FullGameDuration) as real)
    ensures Valid(Launch(s, now, isDemo, trials))
  {
    var duration := if isDemo then DemoDuration else FullGameDuration;
    assert forall i :: 0 <= i < |trials| ==> WellFormedTrial(trials[i], i, duration as real);
    UnrespondedCount(trials, true);
    UnrespondedCount(trials, false);
  }

  lemma {:induction false} UnrespondedCount(ts: seq<Trial>, go: bool)
    requires forall i :: 0 <= i < |ts| ==> !ts[i].responded
    ensures CountResponded(ts, go) == 0
  {
    if ts != [] {
      UnrespondedCount(ts[..|ts| - 1], go);
    }
  }

  /** The first frame of a fresh session: nothing is open yet (no trial starts before
      2000 ms), so it leaves the launched state unchanged; the draw is not read, since the
      speed timer was just reset. */
  lemma FirstFrameQuiet(s: State, now: Time, isDemo: bool, trials: seq<Trial>, draw: real)
    requires WellScheduled(trials, (if isDemo then DemoDuration else FullGameDuration) as real)
    requires 0.0 <= draw < 1.0
    ensures var l := Launch(s, now, isDemo, trials);
            Valid(l) &&
            var r := Tick(l, now, draw);
            r.0 == l && r.1.Some? && !r.1.value.ended && r.1.value.lookAhead.None? && !r.1.value.nextTrialArmed
  {
    var l := Launch(s, now, isDemo, trials);
    LaunchValid(s, now, isDemo, trials);
    assert Elapsed(l, now) == 0;
    NothingDueAtStart(l, now, (if isDemo then DemoDuration else FullGameDuration) as real);
    AdvanceAtStart(l, now, draw);
    assert Step(l, now, draw) == (l, None, false);
  }

  /** A frame at the instant of launch neither changes speed nor moves the pointer. */
  lemma AdvanceAtStart(s: State, now: Time, draw: real)
    requires Valid(s) && 0.0 <= draw < 1.0
    requires s.lastSpeedChange == Some(now) && s.lastFrameTime == Some(now)
    ensures Advance(s, now, draw) == s
  {
    assert ChangeSpeed(s, now, draw) == s;
    assert Move(s, now) == s;
  }

  /** At elapsed time 0 no generated trial is eligible or upcoming, since the first starts
      2000 ms in. */
  lemma NothingDueAtStart(s: State, now: Time, totalTime: real)
    requires Valid(s) && s.isRunning && !s.isPaused && s.currentTrial.None?
    requires Elapsed(s, now) == 0 && WellScheduled(s.trials, totalTime)
    ensures StartNextTrial(s, now) == (s, None)
  {
    forall j | 0 <= j < |s.trials| ensures !Eligible(s.trials[j], 0) && !Upcoming(s.trials[j], 0) {
      StartTimesSpaced(s.trials, totalTime, j, j);
    }
  }

  // ---------------------------------------------------------------- across events

  /** A pause from `t1` to `t2` removes exactly `t2 - t1` from elapsed time. */
  lemma PauseResumeElapsed(s: State, t1: Time, t2: Time, draw: real, t: Time)
    requires Valid(s) && s.isRunning && !s.isPaused && 0.0 <= draw < 1.0
    ensures Elapsed(Resume(Pause(s, t1), t2, draw).0, t) == Elapsed(s, t) - (t2 - t1)
  {
    var p := Pause(s, t1);
    ElapsedRate(s, t1, t);
    assert Elapsed(p, t2) == Elapsed(s, t1);
  }

  /** In a consistent session the hit and false-alarm rates of the results are
      proportions. */
  lemma ResultsRates(s: State, num: Statistics.Numerics)
    requires Valid(s)
    ensures var r := Statistics.ComputeResults(s.trials, s.responses, s.hits, s.misses,
                                               s.falseAlarms, s.correctRejections, num);
            0.0 <= r.hitRate <= 1.0 && 0.0 <= r.falseAlarmRate <= 1.0
  {
    var r := Statistics.ComputeResults(s.trials, s.responses, s.hits, s.misses,
                                       s.falseAlarms, s.correctRejections, num);
    assert s.hits <= CountKind(s.trials, true);
    assert s.falseAlarms <= CountKind(s.trials, false);
    assert r.hitRate == Statistics.Rate(s.hits, CountKind(s.trials, true));
  }

  /** Expiry measures wall time since activation, pause included, while eligibility uses
      elapsed time without it. So after a long pause a go trial can expire, still be open on
      the elapsed clock, be activated again and be counted as a miss a second time: here one
      go trial yields two misses. */
  lemma MissCountedTwice()
    ensures var t0 := Trial(0, 2000.0, 1000.0, true, 0.0, WindowSize, false, None, None);
            var s := State(true, true, DemoDuration, Some(1), false, 2500, None, 0.0, BaseSpeed,
                           None, None, Some(0), [t0], Some(2001), [], 0, 0, 0, 0);
            Valid(s) &&
            var a := Draw(s, 5000).0;
            var b := StartNextTrial(a, 5016).0;
            var c := Draw(b, 6016).0;
            CountKind(c.trials, true) == 1 && c.misses == 2
  {
    var t0 := Trial(0, 2000.0, 1000.0, true, 0.0, WindowSize, false, None, None);
    var s := State(true, true, DemoDuration, Some(1), false, 2500, None, 0.0, BaseSpeed,
                   None, None, Some(0), [t0], Some(2001), [], 0, 0, 0, 0);
    assert [t0][..0] == [];
    assert Valid(s);
    var a := Draw(s, 5000).0;
    assert a.misses == 1 && a.currentTrial.None?;
    assert Elapsed(a, 5016) == 2515;
    assert Eligible(a.trials[0], 2515);
    var b := StartNextTrial(a, 5016).0;
    assert b.currentTrial == Some(0) && b.trialStartTime == Some(5016);
    var c := Draw(b, 6016).0;
    assert c.misses == 2;
    assert c.trials == [t0];
  }
}
