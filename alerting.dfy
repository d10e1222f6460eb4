/**
 * The per-category cooldown gate in front of the Telegram sender
 * (`send_telegram` in python/main.py). Alerts of type "shake" and "drowsy"
 * each keep the time of their last send; any other type is never gated.
 */
module Alerting {
  import opened Wrappers

  /** ALERT_COOLDOWN: minimum seconds between two sends of one gated type. */
  const AlertCooldown: real := 10.0

  /** last_shake_alert_time and last_drowsy_alert_time, in wall-clock seconds. */
  datatype Cooldowns = Cooldowns(lastShake: real, lastDrowsy: real)

  /** The Telegram Bot API call a send attempts. */
  datatype Request = SendMessage | SendPhoto(path: string)

  /**
   * One attempted delivery. Whether the HTTP call succeeded is not part of
   * it: every exception is caught and logged, and the status code is never
   * looked at, so the outcome changes no state.
   */
  datatype Dispatch = Dispatch(alertType: string, request: Request, at: real)

  datatype NotifyResult = NotifyResult(cooldowns: Cooldowns, sent: Option<Dispatch>)

  /** The timestamp that gates `alertType`, or None when the type is not gated. */
  function LastSent(c: Cooldowns, alertType: string): Option<real>
  {
    if alertType == "shake" then Some(c.lastShake)
    else if alertType == "drowsy" then Some(c.lastDrowsy)
    else None
  }

  predicate Gated(alertType: string)
  {
    alertType == "shake" || alertType == "drowsy"
  }

  /** A call at `now` returns early, without sending and without touching any timestamp. */
  predicate Suppressed(c: Cooldowns, alertType: string, now: real)
  {
    LastSent(c, alertType).Some? && now - LastSent(c, alertType).value < AlertCooldown
  }

  /** `if image_path:` — a missing or empty path sends a text message, any other a photo. */
  function RequestFor(imagePath: Option<string>): Request
  {
    match imagePath
    case Some(p) => if p != "" then SendPhoto(p) else SendMessage
    case None => SendMessage
  }

  /** The send attempts a call makes: none or one. */
  function Attempts(sent: Option<Dispatch>): seq<Dispatch>
  {
    if sent.Some? then [sent.value] else []
  }

  /**
   * send_telegram: check the gate of the alert's type; when it is open,
   * reserve it (the timestamp becomes `now`) before the send is attempted.
   */
  function Notify(c: Cooldowns, alertType: string, imagePath: Option<string>, now: real): (r: NotifyResult)
    ensures r.sent.None? <==> Suppressed(c, alertType, now)
    ensures r.sent.Some? ==> r.sent.value == Dispatch(alertType, RequestFor(imagePath), now)
    ensures LastSent(r.cooldowns, alertType) ==
              if r.sent.Some? && Gated(alertType) then Some(now) else LastSent(c, alertType)
    ensures forall other :: other != alertType ==> LastSent(r.cooldowns, other) == LastSent(c, other)
  {
    var attempt := Some(Dispatch(alertType, RequestFor(imagePath), now));
    if alertType == "shake" then
      if now - c.lastShake < AlertCooldown then NotifyResult(c, None)
      else NotifyResult(c.(lastShake := now), attempt)
    else if alertType == "drowsy" then
      if now - c.lastDrowsy < AlertCooldown then NotifyResult(c, None)
      else NotifyResult(c.(lastDrowsy := now), attempt)
    else
      NotifyResult(c, attempt)
  }

  /** Once a gated alert has been sent, the same type is suppressed for the next ten seconds. */
  lemma SendClosesGate(c: Cooldowns, alertType: string, p1: Option<string>, p2: Option<string>, t1: real, t2: real)
    requires Gated(alertType)
    requires Notify(c, alertType, p1, t1).sent.Some?
    ensures t2 - t1 < AlertCooldown ==> Notify(Notify(c, alertType, p1, t1).cooldowns, alertType, p2, t2).sent.None?
    ensures t2 - t1 >= AlertCooldown ==> Notify(Notify(c, alertType, p1, t1).cooldowns, alertType, p2, t2).sent.Some?
  {
  }

  /** A send of one gated type never opens or closes the gate of the other. */
  lemma CooldownsIndependent(c: Cooldowns, p: Option<string>, now: real, later: real)
    ensures Suppressed(Notify(c, "shake", p, now).cooldowns, "drowsy", later) == Suppressed(c, "drowsy", later)
    ensures Suppressed(Notify(c, "drowsy", p, now).cooldowns, "shake", later) == Suppressed(c, "shake", later)
  {
  }

  /** The number of sends a series of calls of one type makes, and the timestamps afterwards. */
  datatype NotifyRun = NotifyRun(cooldowns: Cooldowns, sends: nat)

  function RunNotify(c: Cooldowns, alertType: string, times: seq<real>): NotifyRun
    decreases |times|
  {
    if times == [] then NotifyRun(c, 0)
    else
      var step := Notify(c, alertType, None, times[0]);
      var rest := RunNotify(step.cooldowns, alertType, times[1..]);
      NotifyRun(rest.cooldowns, rest.sends + (if step.sent.Some? then 1 else 0))
  }

  predicate WithinWindow(times: seq<real>, from: real)
  {
    forall i :: 0 <= i < |times| ==> from <= times[i] < from + AlertCooldown
  }

  /** After a send inside the window, nothing else in the window is sent. */
  lemma {:induction false} ReservedWindowSendsNothing(c: Cooldowns, alertType: string, times: seq<real>, from: real)
    requires Gated(alertType)
    requires from <= LastSent(c, alertType).value
    requires WithinWindow(times, from)
    ensures RunNotify(c, alertType, times).sends == 0
    ensures LastSent(RunNotify(c, alertType, times).cooldowns, alertType) == LastSent(c, alertType)
    decreases |times|
  {
    if times != [] {
      var step := Notify(c, alertType, None, times[0]);
      assert step.sent.None? && step.cooldowns == c;
      ReservedWindowSendsNothing(step.cooldowns, alertType, times[1..], from);
    }
  }

  /**
   * Any number of calls of one gated type that all fall within one
   * cooldown window send at most once, whatever order the clock readings
   * come in (the wall clock is not monotonic).
   */
  lemma {:induction false} AtMostOneSendPerWindow(c: Cooldowns, alertType: string, times: seq<real>, from: real)
    requires Gated(alertType)
    requires WithinWindow(times, from)
    ensures RunNotify(c, alertType, times).sends <= 1
    decreases |times|
  {
    if times != [] {
      var step := Notify(c, alertType, None, times[0]);
      if step.sent.Some? {
        ReservedWindowSendsNothing(step.cooldowns, alertType, times[1..], from);
      } else {
        AtMostOneSendPerWindow(step.cooldowns, alertType, times[1..], from);
      }
    }
  }
}
