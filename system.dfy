/**
 * The module-level state of python/main.py and the three handlers that
 * change it: `send_telegram`, the motion callback `on_movement_detected`
 * and the camera loop `loop` with its `cleanup_images`. Two parts of the
 * outside world are kept as fields too: the capture directory (what
 * `os.listdir` and `os.path.getmtime` would report) and the list of every
 * Telegram send attempted so far.
 */
module SafetySystem {
  import opened Wrappers
  import opened Alerting
  import opened ShakeConfirmation
  import opened Drowsiness
  import opened Retention

  /** The result of `cap.read()`, with face and eye detection already applied. */
  datatype CameraFrame =
    | ReadFailed
    | Captured(faces: seq<nat>)  // eyes found in the upper half of each detected face

  class VehicleSafetySystem {
    var lastShakeAlertTime: real
    var lastDrowsyAlertTime: real
    var shakeStartTime: Option<real>
    var shakeActive: bool
    var closedEyeFrames: nat
    /** The capture directory, in listing order. */
    var captures: seq<FileEntry>
    /** Every Telegram request attempted, oldest first. */
    var outbox: seq<Dispatch>

    ghost function Gates(): Cooldowns
      reads this
    {
      Cooldowns(lastShakeAlertTime, lastDrowsyAlertTime)
    }

    ghost function Window(): ShakeWindow
      reads this
    {
      ShakeWindow(shakeStartTime, shakeActive)
    }

    /** What holds between two handler calls. */
    ghost predicate Valid()
      reads this
    {
      Window().Valid() && closedEyeFrames < ClosedFramesThreshold && DistinctNames(captures)
    }

    /** Module start-up: both cooldown timestamps 0, no shake window, no closed-eye frames. */
    constructor (directory: seq<FileEntry>)
      requires DistinctNames(directory)
      ensures Valid()
      ensures Gates() == Cooldowns(0.0, 0.0) && Window() == Idle && closedEyeFrames == 0
      ensures captures == directory && outbox == []
    {
      lastShakeAlertTime, lastDrowsyAlertTime := 0.0, 0.0;
      shakeStartTime, shakeActive := None, false;
      closedEyeFrames := 0;
      captures, outbox := directory, [];
    }

    /** send_telegram, called at wall-clock time `now`; the message text is not modelled. */
    method SendTelegram(imagePath: Option<string>, alertType: string, now: real)
      modifies this`lastShakeAlertTime, this`lastDrowsyAlertTime, this`outbox
      ensures Gates() == Notify(old(Gates()), alertType, imagePath, now).cooldowns
      ensures outbox == old(outbox) + Attempts(Notify(old(Gates()), alertType, imagePath, now).sent)
    {
      if alertType == "shake" {
        if now - lastShakeAlertTime < AlertCooldown {
          return;
        }
        lastShakeAlertTime := now;
      } else if alertType == "drowsy" {
        if now - lastDrowsyAlertTime < AlertCooldown {
          return;
        }
        lastDrowsyAlertTime := now;
      }
      // The request is attempted; any failure is caught and only logged.
      outbox := outbox + [Dispatch(alertType, RequestFor(imagePath), now)];
    }

    /** on_movement_detected, called with a classification result at wall-clock time `now`. */
    method OnMovementDetected(classification: map<string, real>, now: real)
      requires Valid()
      modifies this`shakeStartTime, this`shakeActive, this`lastShakeAlertTime, this`lastDrowsyAlertTime, this`outbox
      ensures Valid()
      ensures Window() == OnMovement(old(Window()), classification, now).window
      ensures OnMovement(old(Window()), classification, now).confirmed ==>
                shakeActive &&
                Gates() == Notify(old(Gates()), "shake", None, now).cooldowns &&
                outbox == old(outbox) + Attempts(Notify(old(Gates()), "shake", None, now).sent)
      ensures !OnMovement(old(Window()), classification, now).confirmed ==>
                Gates() == old(Gates()) && outbox == old(outbox)
    {
      if |classification| == 0 {
        return;
      }
      var maxShakeConf := MaxConfidence(classification, ShakeClasses);
      if maxShakeConf >= ShakeConfidenceThreshold {
        if shakeStartTime == None {
          shakeStartTime := Some(now);
        } else if now - shakeStartTime.value >= ShakeTimeThreshold && !shakeActive {
          shakeActive := true;
          SendTelegram(None, "shake", now);
        }
      } else {
        shakeStartTime := None;
        shakeActive := false;
      }
    }

    /** cleanup_images: remove the oldest `.jpg` files while more than MAX_STORED_IMAGES remain. */
    method CleanupImages()
      requires DistinctNames(captures)
      modifies this`captures
      ensures captures == Cleaned(old(captures))
      ensures DistinctNames(captures) && |JpgFiles(captures)| <= MaxStoredImages
      ensures OtherFiles(captures) == OtherFiles(old(captures))
    {
      ghost var before := captures;
      ghost var popped := 0;
      var files := Candidates(captures);
      while |files| > MaxStoredImages
        invariant popped <= EvictionCount(before)
        invariant files == Candidates(before)[popped..]
        invariant captures == RemoveAll(before, Candidates(before)[..popped])
        decreases |files|
      {
        assert Candidates(before)[..popped + 1][..popped] == Candidates(before)[..popped];
        captures := RemoveNamed(captures, files[0].name);
        files := files[1..];
        popped := popped + 1;
      }
      assert Candidates(before)[..popped] == Evicted(before);
      CleanupKeepsNewest(before);
    }

    /** One pass of `loop`, at wall-clock time `now`. */
    method Loop(frame: CameraFrame, now: real)
      requires Valid()
      modifies this`closedEyeFrames, this`captures, this`lastShakeAlertTime, this`lastDrowsyAlertTime, this`outbox
      ensures Valid()
      ensures frame.ReadFailed? ==>
                closedEyeFrames == old(closedEyeFrames) && captures == old(captures) &&
                Gates() == old(Gates()) && outbox == old(outbox)
      ensures frame.Captured? ==> closedEyeFrames == CountFrame(old(closedEyeFrames), frame.faces).count
      ensures frame.Captured? && !CountFrame(old(closedEyeFrames), frame.faces).alert ==>
                captures == old(captures) && Gates() == old(Gates()) && outbox == old(outbox)
      ensures frame.Captured? && CountFrame(old(closedEyeFrames), frame.faces).alert ==>
                var name := ImageName("drowsy", now);
                var path := CaptureDir + "/" + name;
                captures == Cleaned(WriteImage(old(captures), name, now)) &&
                |JpgFiles(captures)| <= MaxStoredImages &&
                OtherFiles(captures) == OtherFiles(old(captures)) &&
                Gates() == Notify(old(Gates()), "drowsy", Some(path), now).cooldowns &&
                outbox == old(outbox) + Attempts(Notify(old(Gates()), "drowsy", Some(path), now).sent)
    {
      if frame.ReadFailed? {
        return;
      }
      var faces := frame.faces;
      if |faces| == 0 {
        closedEyeFrames := 0;
        return;
      }
      ghost var step := CountFrame(closedEyeFrames, faces);
      var eyesDetected := ScanForOpenEyes(faces);
      closedEyeFrames := if !eyesDetected then closedEyeFrames + 1 else 0;
      if closedEyeFrames >= ClosedFramesThreshold {
        assert step.alert;
        var name := ImageName("drowsy", now);
        captures := WriteImage(captures, name, now);
        assert OtherFiles(captures) == OtherFiles(old(captures));
        CleanupImages();
        SendTelegram(Some(CaptureDir + "/" + name), "drowsy", now);
        closedEyeFrames := 0;
      } else {
        assert !step.alert && closedEyeFrames == step.count;
      }
    }
  }
}
