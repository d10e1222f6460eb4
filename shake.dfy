/**
 * The shake confirmation state machine (`on_movement_detected` in
 * python/main.py): a shake is confirmed once the motion classifier has
 * kept one of the shake classes at or above a confidence threshold for a
 * minimum time, and at most once per such run.
 */
module ShakeConfirmation {
  import opened Wrappers

  /** SHAKE_CLASSES */
  const ShakeClasses: seq<string> := ["snake", "updown", "wave"]
  /** SHAKE_CONFIDENCE_THRESHOLD */
  const ShakeConfidenceThreshold: real := 0.6
  /** SHAKE_TIME_THRESHOLD, in seconds */
  const ShakeTimeThreshold: real := 2.5

  /** The confidence of class `name`, 0.0 when the classifier did not report it. */
  function Confidence(classification: map<string, real>, name: string): real
  {
    if name in classification then classification[name] else 0.0
  }

  /** The largest confidence among `labels` (missing labels count as 0.0). */
  function MaxConfidence(classification: map<string, real>, labels: seq<string>): (r: real)
    requires |labels| > 0
    ensures forall i :: 0 <= i < |labels| ==> Confidence(classification, labels[i]) <= r
    ensures exists i :: 0 <= i < |labels| && r == Confidence(classification, labels[i])
    decreases |labels|
  {
    if |labels| == 1 then Confidence(classification, labels[0])
    else
      var rest := MaxConfidence(classification, labels[1..]);
      var first := Confidence(classification, labels[0]);
      if first >= rest then first else rest
  }

  /** An empty classification is ignored; otherwise it is above or below the threshold. */
  predicate Above(classification: map<string, real>)
  {
    |classification| > 0 && MaxConfidence(classification, ShakeClasses) >= ShakeConfidenceThreshold
  }

  predicate Below(classification: map<string, real>)
  {
    |classification| > 0 && MaxConfidence(classification, ShakeClasses) < ShakeConfidenceThreshold
  }

  /** shake_start_time and shake_active. */
  datatype ShakeWindow = ShakeWindow(start: Option<real>, active: bool)
  {
    /** A window is only confirmed after it has started. */
    predicate Valid()
    {
      active ==> start.Some?
    }
  }

  const Idle: ShakeWindow := ShakeWindow(None, false)

  /** The new window, and whether this call confirmed a shake (and so raises a shake alert). */
  datatype ShakeStep = ShakeStep(window: ShakeWindow, confirmed: bool)

  /** One classification result delivered at `now`. */
  function OnMovement(w: ShakeWindow, classification: map<string, real>, now: real): (r: ShakeStep)
    ensures w.Valid() ==> r.window.Valid()
    ensures |classification| == 0 ==> r == ShakeStep(w, false)
    ensures Below(classification) ==> r == ShakeStep(Idle, false)
    ensures Above(classification) ==> r.window.start == if w.start.None? then Some(now) else w.start
    ensures Above(classification) ==> r.window.active == (w.active || r.confirmed)
    ensures r.confirmed <==>
              Above(classification) && w.start.Some? && !w.active && now - w.start.value >= ShakeTimeThreshold
  {
    if |classification| == 0 then ShakeStep(w, false)
    else
      var maxShakeConf := MaxConfidence(classification, ShakeClasses);
      if maxShakeConf >= ShakeConfidenceThreshold then
        if w.start.None? then ShakeStep(w.(start := Some(now)), false)
        else if now - w.start.value >= ShakeTimeThreshold && !w.active then ShakeStep(w.(active := true), true)
        else ShakeStep(w, false)
      else ShakeStep(Idle, false)
  }

  /** A classification result and the wall-clock time it was handled at. */
  datatype Reading = Reading(classification: map<string, real>, at: real)

  datatype ShakeRun = ShakeRun(window: ShakeWindow, confirmations: nat)

  function RunShake(w: ShakeWindow, readings: seq<Reading>): ShakeRun
    decreases |readings|
  {
    if readings == [] then ShakeRun(w, 0)
    else
      var step := OnMovement(w, readings[0].classification, readings[0].at);
      var rest := RunShake(step.window, readings[1..]);
      ShakeRun(rest.window, rest.confirmations + (if step.confirmed then 1 else 0))
  }

  /** No reading drops below the threshold (empty results do not break a run). */
  predicate NeverBelow(readings: seq<Reading>)
  {
    forall i :: 0 <= i < |readings| ==> !Below(readings[i].classification)
  }

  /** Once confirmed, a window stays confirmed and silent until confidence drops. */
  lemma {:induction false} ConfirmedRunIsSilent(w: ShakeWindow, readings: seq<Reading>)
    requires w.active
    requires NeverBelow(readings)
    ensures RunShake(w, readings).confirmations == 0
    ensures RunShake(w, readings).window.active
    decreases |readings|
  {
    if readings != [] {
      var step := OnMovement(w, readings[0].classification, readings[0].at);
      ConfirmedRunIsSilent(step.window, readings[1..]);
    }
  }

  /** At most one shake alert per contiguous above-threshold run, from any state. */
  lemma {:induction false} AtMostOneConfirmationPerRun(w: ShakeWindow, readings: seq<Reading>)
    requires NeverBelow(readings)
    ensures RunShake(w, readings).confirmations <= 1
    decreases |readings|
  {
    if readings != [] {
      var step := OnMovement(w, readings[0].classification, readings[0].at);
      if step.confirmed {
        ConfirmedRunIsSilent(step.window, readings[1..]);
      } else {
        AtMostOneConfirmationPerRun(step.window, readings[1..]);
      }
    }
  }

  /**
   * A run that starts at `t0` and is still above the threshold at a time
   * at least SHAKE_TIME_THRESHOLD later is confirmed exactly once.
   */
  lemma {:induction false} SustainedRunConfirmsOnce(t0: real, readings: seq<Reading>)
    requires |readings| > 0 && NeverBelow(readings)
    requires Above(readings[|readings| - 1].classification)
    requires readings[|readings| - 1].at - t0 >= ShakeTimeThreshold
    ensures RunShake(ShakeWindow(Some(t0), false), readings).confirmations == 1
    decreases |readings|
  {
    var w := ShakeWindow(Some(t0), false);
    var step := OnMovement(w, readings[0].classification, readings[0].at);
    if step.confirmed {
      ConfirmedRunIsSilent(step.window, readings[1..]);
    } else {
      assert step.window == w;
      SustainedRunConfirmsOnce(t0, readings[1..]);
    }
  }

  /** From idle: the first above-threshold reading starts the window and is never itself confirmed. */
  lemma {:induction false} IdleRunConfirmsOnce(first: Reading, readings: seq<Reading>)
    requires Above(first.classification)
    requires |readings| > 0 && NeverBelow(readings)
    requires Above(readings[|readings| - 1].classification)
    requires readings[|readings| - 1].at - first.at >= ShakeTimeThreshold
    ensures RunShake(Idle, [first] + readings).confirmations == 1
  {
    var all := [first] + readings;
    var step := OnMovement(Idle, first.classification, first.at);
    assert step.window == ShakeWindow(Some(first.at), false) && !step.confirmed;
    assert all[0] == first && all[1..] == readings;
    SustainedRunConfirmsOnce(first.at, readings);
    assert RunShake(Idle, all).confirmations == RunShake(step.window, readings).confirmations;
  }

  /**
   * Readings that all fall less than SHAKE_TIME_THRESHOLD after `t0`, on a
   * window that did not start before `t0`, confirm nothing — whatever drops
   * below the threshold happen in between.
   */
  lemma {:induction false} ShortRunConfirmsNothing(w: ShakeWindow, readings: seq<Reading>, t0: real)
    requires w.start.Some? ==> w.start.value >= t0
    requires forall i :: 0 <= i < |readings| ==> t0 <= readings[i].at < t0 + ShakeTimeThreshold
    ensures RunShake(w, readings).confirmations == 0
    decreases |readings|
  {
    if readings != [] {
      var step := OnMovement(w, readings[0].classification, readings[0].at);
      ShortRunConfirmsNothing(step.window, readings[1..], t0);
    }
  }
}
