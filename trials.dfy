/** The records the engine keeps: trials (one per stimulus window) and the response log. */
module Trials {
  import opened Wrappers

  /** A `Date.now()` reading: milliseconds since the epoch, always positive, so a
      timestamp field is truthy exactly when it is set. */
  type Time = t: int | 0 < t witness 1

  /** A stimulus window. `startTime` and `duration` are milliseconds of session time;
      `pointerEntryTime` is a wall-clock timestamp. `id` is the trial's position in the list. */
  datatype Trial = Trial(
    id: nat,
    startTime: real,
    duration: real,
    isGoTrial: bool,
    windowAngle: real,
    windowSize: real,
    responded: bool,
    responseTime: Option<int>,
    pointerEntryTime: Option<Time>)

  /** The `type` of a logged response: `'hit'` or `'false_alarm'`. */
  datatype Kind = Hit | FalseAlarm

  /** An entry of the response log; `trial` is the id of the trial it scores. */
  datatype Response = Response(kind: Kind, reactionTime: int, trial: nat)

  /** `Array.prototype.find` returning the position: the first trial satisfying `p`. */
  function FindFirst(ts: seq<Trial>, p: Trial -> bool): (r: Option<nat>)
    ensures r.Some? ==> r.value < |ts| && p(ts[r.value])
    ensures r.Some? ==> forall j :: 0 <= j < r.value ==> !p(ts[j])
    ensures r.None? ==> forall j :: 0 <= j < |ts| ==> !p(ts[j])
  {
    if |ts| == 0 then None
    else if p(ts[0]) then Some(0)
    else match FindFirst(ts[1..], p)
      case None => None
      case Some(i) => Some(i + 1)
  }

  /** The number of responded trials of one kind (go when `go`, no-go otherwise). */
  function CountResponded(ts: seq<Trial>, go: bool): (n: nat)
    ensures n <= CountKind(ts, go)
  {
    if |ts| == 0 then 0
    else CountResponded(ts[..|ts| - 1], go)
         + (if ts[|ts| - 1].responded && ts[|ts| - 1].isGoTrial == go then 1 else 0)
  }

  /** The number of go trials (when `go`) or no-go trials (otherwise): the `filter(...).length`
      of the statistics. */
  function CountKind(ts: seq<Trial>, go: bool): nat
  {
    if |ts| == 0 then 0
    else CountKind(ts[..|ts| - 1], go) + (if ts[|ts| - 1].isGoTrial == go then 1 else 0)
  }

  /** Two trial lists that agree on every trial's id, kind and responded flag. */
  predicate SameOutcomes(ts: seq<Trial>, us: seq<Trial>)
  {
    |ts| == |us| &&
    forall i :: 0 <= i < |ts| ==>
      us[i].id == ts[i].id && us[i].isGoTrial == ts[i].isGoTrial && us[i].responded == ts[i].responded
  }

  /** Counts depend only on kinds and responded flags. */
  lemma {:induction false} CountsOfSameOutcomes(ts: seq<Trial>, us: seq<Trial>, go: bool)
    requires SameOutcomes(ts, us)
    ensures CountResponded(us, go) == CountResponded(ts, go)
    ensures CountKind(us, go) == CountKind(ts, go)
  {
    if |ts| > 0 {
      var n := |ts| - 1;
      assert SameOutcomes(ts[..n], us[..n]);
      CountsOfSameOutcomes(ts[..n], us[..n], go);
    }
  }

  /** Marking one unresponded trial as responded (kind unchanged) raises the count of its
      kind by exactly one and leaves the other kind's count alone. */
  lemma {:induction false} CountAfterResponse(ts: seq<Trial>, i: nat, t: Trial, go: bool)
    requires i < |ts|
    requires !ts[i].responded && t.responded && t.isGoTrial == ts[i].isGoTrial
    ensures CountResponded(ts[i := t], go)
            == CountResponded(ts, go) + (if ts[i].isGoTrial == go then 1 else 0)
    ensures CountKind(ts[i := t], go) == CountKind(ts, go)
  {
    var n := |ts| - 1;
    var us := ts[i := t];
    if i == n {
      assert us[..n] == ts[..n];
    } else {
      assert us[..n] == ts[..n][i := t];
      CountAfterResponse(ts[..n], i, t, go);
    }
  }

  /** Every trial is either go or no-go. */
  lemma {:induction false} CountKindSplit(ts: seq<Trial>)
    ensures CountKind(ts, true) + CountKind(ts, false) == |ts|
  {
    if |ts| > 0 {
      CountKindSplit(ts[..|ts| - 1]);
    }
  }
}
