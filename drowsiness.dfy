/**
 * The closed-eye frame counter inside `loop` in python/main.py. The face
 * and eye detectors are outside the model: a frame is given as the number
 * of eyes the eye detector found in the upper half of each detected face.
 */
module Drowsiness {
  /** CLOSED_FRAMES_THRESHOLD */
  const ClosedFramesThreshold: nat := 3

  /** eyes_detected: some face shows at least two eyes. */
  predicate EyesOpen(faces: seq<nat>)
  {
    exists i :: 0 <= i < |faces| && faces[i] >= 2
  }

  /** The scan over the detected faces, stopping at the first face with two eyes. */
  method ScanForOpenEyes(faces: seq<nat>) returns (eyesDetected: bool)
    ensures eyesDetected == EyesOpen(faces)
  {
    eyesDetected := false;
    var i := 0;
    while i < |faces|
      invariant 0 <= i <= |faces|
      invariant !eyesDetected
      invariant forall k :: 0 <= k < i ==> faces[k] < 2
    {
      if faces[i] >= 2 {
        eyesDetected := true;
        break;
      }
      i := i + 1;
    }
  }

  /** The counter after a frame, and whether the frame raises a drowsiness alert. */
  datatype FrameOutcome = FrameOutcome(count: nat, alert: bool)

  /** One captured frame: no face resets, open eyes reset, closed eyes count up to the threshold. */
  function CountFrame(count: nat, faces: seq<nat>): (r: FrameOutcome)
    ensures r.count < ClosedFramesThreshold
    ensures r.alert ==> r.count == 0
    ensures |faces| == 0 || EyesOpen(faces) ==> r == FrameOutcome(0, false)
    ensures r.alert <==> |faces| > 0 && !EyesOpen(faces) && count + 1 >= ClosedFramesThreshold
    ensures !r.alert && |faces| > 0 && !EyesOpen(faces) ==> r.count == count + 1
  {
    if |faces| == 0 then FrameOutcome(0, false)
    else
      var closedEyeFrames := if !EyesOpen(faces) then count + 1 else 0;
      if closedEyeFrames >= ClosedFramesThreshold then FrameOutcome(0, true)
      else FrameOutcome(closedEyeFrames, false)
  }

  datatype FramesRun = FramesRun(count: nat, alerts: nat)

  function RunFrames(count: nat, frames: seq<seq<nat>>): FramesRun
    decreases |frames|
  {
    if frames == [] then FramesRun(count, 0)
    else
      var step := CountFrame(count, frames[0]);
      var rest := RunFrames(step.count, frames[1..]);
      FramesRun(rest.count, rest.alerts + (if step.alert then 1 else 0))
  }

  /** A frame with a face and no open eyes. */
  predicate Closed(faces: seq<nat>)
  {
    |faces| > 0 && !EyesOpen(faces)
  }

  /**
   * A run of consecutive closed-eye frames alerts once every third frame:
   * after n of them, starting from count c, there were (c + n) / 3 alerts
   * and the counter is (c + n) % 3.
   */
  lemma {:induction false} ClosedRunAlertsEveryThirdFrame(count: nat, frames: seq<seq<nat>>)
    requires count < ClosedFramesThreshold
    requires forall i :: 0 <= i < |frames| ==> Closed(frames[i])
    ensures RunFrames(count, frames) ==
              FramesRun((count + |frames|) % ClosedFramesThreshold, (count + |frames|) / ClosedFramesThreshold)
    decreases |frames|
  {
    if frames != [] {
      assert Closed(frames[0]);
      var step := CountFrame(count, frames[0]);
      ClosedRunAlertsEveryThirdFrame(step.count, frames[1..]);
      if count + 1 == ClosedFramesThreshold {
        assert step == FrameOutcome(0, true);
      } else {
        assert step == FrameOutcome(count + 1, false);
      }
    }
  }

  /** Any frame that is not a closed-eye frame wipes out the count. */
  lemma OpenOrEmptyFrameResets(count: nat, faces: seq<nat>, frames: seq<seq<nat>>)
    requires !Closed(faces)
    ensures RunFrames(count, [faces] + frames) == RunFrames(0, frames)
  {
  }
}
