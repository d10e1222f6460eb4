# Vehicle safety alert: alert gating and confirmation logic

A Dafny model of the decision logic in `python/main.py` of the Arduino UNO Q
vehicle safety alert script. The script watches a driver through a camera
and a vehicle through an accelerometer, and sends Telegram alerts. Four
pieces of it keep state and decide when an alert goes out:

- **The cooldown gate** (`send_telegram`). Alerts of type `"shake"` and
  `"drowsy"` each remember when they were last sent. A call less than
  `ALERT_COOLDOWN` (10 s) after that returns without sending. Otherwise the
  timestamp is moved to `now` before the request is tried. Any other alert
  type is never gated.
- **Shake confirmation** (`on_movement_detected`). The motion classifier
  reports confidences per class. The largest of `snake`/`updown`/`wave` (a
  missing class counts as 0.0) is compared with 0.6. The first reading at
  or above it starts a window. A later such reading, at least 2.5 s after
  the start, confirms the shake once and raises one shake alert. A reading
  below 0.6 clears the window. An empty result changes nothing.
- **The closed-eye counter** (inside `loop`). A frame with no face resets
  the counter. Otherwise the counter goes up by one when no face shows two
  eyes, and back to 0 when one does. On reaching 3 the frame is saved as
  `captures/drowsy_<int(now)>.jpg`, old images are cleaned up, a drowsy
  alert with the photo is raised, and the counter goes back to 0.
- **Image retention** (`cleanup_images`). The `.jpg` files of the capture
  directory are sorted by modification time. The oldest are removed until
  at most `MAX_STORED_IMAGES` (20) are left.

Layout:

- `alerting.dfy`, module `Alerting`: the gate as a function `Notify` on the
  two timestamps, and lemmas about repeated calls.
- `shake.dfy`, module `ShakeConfirmation`: the shake window as a function
  `OnMovement`, its run over many readings (`RunShake`), and lemmas about
  such runs.
- `drowsiness.dfy`, module `Drowsiness`: the face scan (`ScanForOpenEyes`, a
  loop with early exit), the counter step `CountFrame`, and a lemma about
  runs of closed-eye frames.
- `retention.dfy`, module `Retention`: the directory listing, the stable
  sort by modification time, the evicted and kept files, removal by name,
  and the evidence file name.
- `system.dfy`, module `SafetySystem`: class `VehicleSafetySystem`. Its
  fields are the script's globals (`last_shake_alert_time`,
  `last_drowsy_alert_time`, `shake_start_time`, `shake_active`,
  `closed_eye_frames`), plus two parts of the outside world: the capture
  directory (`captures`, names with modification times in listing order)
  and every Telegram request tried so far (`outbox`). Its methods are the
  handlers, written step by step like the script. Each method's
  postcondition gives its new state through the functions above.
- `wrappers.dfy`: the `Option` type.

The clock and the detectors are parameters. Every handler takes the
wall-clock reading `now`. A camera frame arrives as `ReadFailed` or as the
number of eyes found in each detected face.

Points where the script's behaviour is easy to misread; the model follows
the code:

- The clock is `time.time()`, a wall clock that can go backwards. No lemma
  assumes that readings increase.
- The HTTP status code is never checked and every exception is swallowed.
  A `Dispatch` therefore records an attempt, not a delivery. A failed send
  still uses up the cooldown.
- `cleanup_images` re-lists the directory. Every `.jpg` file there takes
  part, including ones the script did not write. Other files are never
  removed.
- Both timestamps start at 0. A gated alert is therefore suppressed while
  the clock reads less than 10.
- The photo is saved and the directory cleaned on every third closed-eye
  frame, even when the gate then suppresses the drowsy send.
- `if image_path:` treats an empty path like no path, so a text message is
  sent (`Alerting.RequestFor`).

## Model

| member | source | states |
|---|---|---|
| `Alerting.Notify` | python/main.py:46-81 | Nothing is sent exactly when the type is gated and less than 10 s have passed since its last send. Otherwise the attempt carries the type, the photo or text request and `now`. Only the matching type's timestamp changes, and it becomes `now`. Other types' timestamps never change, and an ungated type is always sent. |
| `Alerting.SendClosesGate` | python/main.py:50-58 | After a gated send at `t1`, a call of the same type at `t2` is suppressed if `t2 - t1 < 10` and sent if `t2 - t1 >= 10`. |
| `Alerting.CooldownsIndependent` | python/main.py:46-58 | A shake call never changes whether a drowsy call is suppressed, and the reverse. |
| `Alerting.ReservedWindowSendsNothing` | python/main.py:50-58 | If the last send of a gated type lies in a 10 s window, no later call in that window sends, in any clock order, and the timestamp stays put. |
| `Alerting.AtMostOneSendPerWindow` | python/main.py:50-58 | Any series of calls of one gated type within one 10 s window sends at most once, from any starting timestamps and in any clock order. |
| `ShakeConfirmation.MaxConfidence` | python/main.py:93 | The result is at least the confidence of every listed class, missing ones counting as 0.0, and equals one of them. |
| `ShakeConfirmation.OnMovement` | python/main.py:86-114 | An empty result changes nothing and confirms nothing. A below-threshold result resets to (None, false). An above-threshold result sets an empty start to `now` and otherwise keeps the start. It confirms exactly when the window had started, was not yet active and at least 2.5 s have passed. Confirming makes the window active. `active ==> start set` is preserved. |
| `ShakeConfirmation.ConfirmedRunIsSilent` | python/main.py:95-110 | From an active window, readings that never drop below the threshold confirm nothing more, and the window stays active. |
| `ShakeConfirmation.AtMostOneConfirmationPerRun` | python/main.py:95-114 | From any state, a run of readings that never drops below the threshold confirms at most once. |
| `ShakeConfirmation.SustainedRunConfirmsOnce` | python/main.py:95-110 | From a window started at `t0` and not yet active, a run that never drops below the threshold and ends with an above-threshold reading at least 2.5 s after `t0` confirms exactly once. |
| `ShakeConfirmation.IdleRunConfirmsOnce` | python/main.py:95-110 | From idle, the first above-threshold reading starts the window without confirming. A sustained run ending at least 2.5 s after it then confirms exactly once. |
| `ShakeConfirmation.ShortRunConfirmsNothing` | python/main.py:95-114 | If every reading falls within 2.5 s after `t0`, and the window did not start before `t0`, nothing is confirmed. This holds whatever drops below the threshold happen in between. |
| `Drowsiness.ScanForOpenEyes` | python/main.py:168-179 | The scan with early exit returns true exactly when some face shows at least two eyes. |
| `Drowsiness.CountFrame` | python/main.py:164-202 | The counter after a frame is always below 3. A frame with no face, or with open eyes, gives (0, no alert). A closed-eye frame raises an alert exactly when `old + 1 >= 3`, and the alert resets the counter to 0; otherwise it leaves `old + 1`. |
| `Drowsiness.ClosedRunAlertsEveryThirdFrame` | python/main.py:181-202 | From a count `c < 3`, `n` consecutive closed-eye frames raise `(c + n) / 3` alerts and leave the counter at `(c + n) % 3`. So three frames from 0 alert once, and a fourth leaves the count at 1. |
| `Drowsiness.OpenOrEmptyFrameResets` | python/main.py:164-181 | A frame with no face or with open eyes makes the rest of a run behave as if it started from 0. |
| `Retention.JpgFiles` | python/main.py:144 | It keeps exactly the listed entries whose name ends in `.jpg`. Its body filters the listing front to back, so listing order is kept, but no contract states that order. |
| `Retention.SortByMtime` | python/main.py:143-146 | The result is sorted by modification time and is a permutation of the input. Its body inserts each entry before the first entry that is not older, so ties keep their input order like Python's stable `sorted`. No contract states that; `os.listdir` order is unspecified anyway. |
| `Retention.EvictionCount` | python/main.py:147 | The loop pops `n - 20` files when there are `n > 20` `.jpg` files, and none otherwise. |
| `Retention.Evicted` | python/main.py:147-148 | Every removed file is a listed `.jpg` file. |
| `Retention.EvictsAllButNewest` | python/main.py:142-148 | Removed and kept files are together exactly the `.jpg` files as a multiset. `min(n, 20)` are kept, and with at most 20 nothing is removed. |
| `Retention.EvictsOldest` | python/main.py:142-148 | Every removed file is at least as old (by mtime) as every kept one. |
| `Retention.RemoveNamed` | python/main.py:148 | `os.remove` leaves exactly the entries with a different name. |
| `Retention.RemoveAllJpg` | python/main.py:147-148 | Removing the names of `.jpg` files one by one takes exactly those files out of the `.jpg` files. Other files stay, and names stay distinct. |
| `Retention.CleanupKeepsNewest` | python/main.py:142-148 | After cleanup the directory's `.jpg` files are exactly the kept newest ones, so at most 20 remain. Every other file is still there. With at most 20 `.jpg` files the directory is unchanged. |
| `Retention.TruncateToInt` | python/main.py:185 | `int()` truncates toward zero: the result is within one unit of the input, on the side of 0. |
| `Retention.ImageName` | python/main.py:184-186 | The evidence name is `<category>_`, then the decimal digits of `int(now)` (read back, they give that value), then `.jpg`, so it always takes part in retention. |
| `Retention.WriteImage` | python/main.py:187 | After the write the file exists with mtime `now`, replacing any file of that name. Names stay distinct and non-`.jpg` files are untouched. |
| `SafetySystem.VehicleSafetySystem.constructor` | python/main.py:38-43 | Both timestamps start at 0, the shake window starts idle, the counter at 0, and no request has been tried. |
| `SafetySystem.VehicleSafetySystem.SendTelegram` | python/main.py:46-81 | The new timestamps are those of `Notify`. The outbox grows by its attempt, or by nothing when suppressed. |
| `SafetySystem.VehicleSafetySystem.OnMovementDetected` | python/main.py:86-114 | The window becomes `OnMovement`'s. On confirmation `shake_active` is set and a shake notify goes through the gate, even if the gate then suppresses it. Otherwise the gate and outbox are unchanged. The counter and directory are never touched. |
| `SafetySystem.VehicleSafetySystem.CleanupImages` | python/main.py:142-148 | The pop-and-remove loop leaves the directory as `Cleaned` of the old one. At most 20 `.jpg` files remain, and other files are unchanged. |
| `SafetySystem.VehicleSafetySystem.Loop` | python/main.py:151-204 | A failed read changes nothing. Otherwise the counter becomes `CountFrame`'s. On an alert frame the image is written, the directory cleaned (at most 20 `.jpg` files, other files intact) and a drowsy photo notify goes through the gate. On any other frame the directory, gate and outbox are unchanged. The shake state is never touched. |

## Left out

- Camera capture, resizing, colour conversion and the Haar-cascade face and eye detectors are not modelled. A frame is given as per-face eye counts. The detector runs lazily per face in the source, which makes no difference once its output is given.
- The Telegram HTTP requests, opening the photo file, and logging are not modelled. A send is recorded as an attempted `Dispatch` whatever its outcome. This includes a photo that cleanup has just removed, which raises on `open` and is swallowed.
- Message texts and their formatting with `datetime.now()` are not modelled.
- `time.sleep` is not modelled.
- `MotionDetection`, its subscription loop, `Bridge.provide`, `App.run` and `record_sensor_movement`'s g to m/s² scaling are outside components or plain float arithmetic.
- The sensor callback and the camera loop can run in different contexts and the source has no locking. Each handler is modelled as one atomic step.
- `SafetySystem.VehicleSafetySystem.OnMovementDetected`: `send_telegram` reads the clock again. The model uses the handler's own reading `now` for it.
- `SafetySystem.VehicleSafetySystem.Loop`: the file name, the file's modification time and the notify all use one clock reading `now`. A failing `cv2.imwrite` or `os.remove` is not modelled; the source does not catch a failing `os.remove`.
- `Retention.WriteImage`: `os.listdir` order is unspecified. A rewritten file is placed at the end of the listing, and the listing order only breaks ties in the stable sort.
- Times and confidences are reals, not IEEE doubles. NaN and rounding are not modelled.
