/**
 When a reminder fires: the delay the reminder command asks for, and the
 browser timer that waits for it. Timestamps and the clock are milliseconds
 since the epoch, as `Date.now()` gives them.
 */
module Timing {
  import opened Common
  import opened Text
  import opened Commands
  import opened Lists

  const SecondMs: nat := 1000
  const MinuteMs: nat := 60 * 1000
  const HourMs: nat := 60 * 60 * 1000

  /** The longest delay a browser timer accepts: 2^31 - 1 milliseconds, about 24.8 days. */
  const MaxDelay: int := 2147483647

  /**
   The delay as the reminder command computes it: a case-sensitive
   `startsWith` on the unit the case-insensitive pattern captured. A unit
   typed with a capital letter matches none of the three tests and leaves
   the delay at 0.
   */
  function DurationAsWritten(unit: string, num: nat): (ms: nat)
    ensures StartsWith(unit, "second") ==> ms == num * SecondMs
    ensures StartsWith(unit, "minute") ==> ms == num * MinuteMs
    ensures StartsWith(unit, "hour") ==> ms == num * HourMs
    ensures !StartsWith(unit, "second") && !StartsWith(unit, "minute") && !StartsWith(unit, "hour") ==> ms == 0
  {
    assert StartsWith(unit, "minute") ==> !StartsWith(unit, "second") by {
      if StartsWith(unit, "minute") { assert unit[0] == 'm'; }
    }
    assert StartsWith(unit, "hour") ==> !StartsWith(unit, "second") && !StartsWith(unit, "minute") by {
      if StartsWith(unit, "hour") { assert unit[0] == 'h'; }
    }
    if StartsWith(unit, "second") then num * SecondMs
    else if StartsWith(unit, "minute") then num * MinuteMs
    else if StartsWith(unit, "hour") then num * HourMs
    else 0
  }

  /** The delay the reminder command means: `num` of the captured unit, whatever its letter case. */
  function Duration(unit: string, num: nat): (ms: nat)
    requires UnitWord(unit)
    ensures CiAt(unit, 0, "second") ==> ms == num * SecondMs
    ensures CiAt(unit, 0, "minute") ==> ms == num * MinuteMs
    ensures CiAt(unit, 0, "hour") ==> ms == num * HourMs
  {
    FirstLetter(unit);
    if Lower(unit[0]) == 's' then num * SecondMs
    else if Lower(unit[0]) == 'm' then num * MinuteMs
    else num * HourMs
  }

  /** The first letter of a match of one of the unit words decides which word it is. */
  lemma FirstLetter(unit: string)
    ensures CiAt(unit, 0, "second") ==> Lower(unit[0]) == 's'
    ensures CiAt(unit, 0, "minute") ==> Lower(unit[0]) == 'm'
    ensures CiAt(unit, 0, "hour") ==> Lower(unit[0]) == 'h'
  {
    if CiAt(unit, 0, "second") { CiAtIndex(unit, 0, "second", 0); }
    if CiAt(unit, 0, "minute") { CiAtIndex(unit, 0, "minute", 0); }
    if CiAt(unit, 0, "hour") { CiAtIndex(unit, 0, "hour", 0); }
  }

  /** A captured unit written entirely in lower case. */
  predicate LowerCaseUnit(unit: string) {
    UnitWord(unit) && (unit == "second" || unit == "minute" || unit == "hour")
  }

  /**
   On a captured unit the delay as written is the intended one when the unit
   was typed in lower case, and 0 otherwise.
   */
  lemma DurationAsWrittenOfCapture(unit: string, num: nat)
    requires UnitWord(unit)
    ensures DurationAsWritten(unit, num) == if LowerCaseUnit(unit) then Duration(unit, num) else 0
  {
    if LowerCaseUnit(unit) {
      DurationAsWrittenLowerCase(unit, num);
    } else if |unit| == 6 {
      SameLengthPrefix(unit, "second");
      SameLengthPrefix(unit, "minute");
      if CiAt(unit, 0, "second") { CiAtIndex(unit, 0, "second", 0); } else { CiAtIndex(unit, 0, "minute", 0); }
    } else {
      SameLengthPrefix(unit, "hour");
    }
  }

  /** A string starts with a word of its own length exactly when it is that word. */
  lemma SameLengthPrefix(u: string, w: string)
    requires |u| == |w|
    ensures StartsWith(u, w) <==> u == w
  {
    assert u[..|w|] == u;
  }

  /** For a unit typed in lower case the two agree. */
  lemma DurationAsWrittenLowerCase(unit: string, num: nat)
    requires LowerCaseUnit(unit)
    ensures UnitWord(unit) && DurationAsWritten(unit, num) == Duration(unit, num)
  {
    assert StartsWith(unit, unit);
    if unit != "second" {
      assert unit[0] != "second"[0];
    }
    if unit == "hour" {
      assert unit[0] != "minute"[0];
    }
  }

  /**
   `remind me to stretch in 10 Minutes` captures the unit `Minute`; the
   delay as written is then 0, so the reminder is delivered at once instead
   of ten minutes later.
   */
  lemma CapitalUnitDeliversAtOnce()
    ensures var m := ReminderCommand("remind me to " + "stretch" + ReminderTail("10", "Minutes"));
            && m == Some(ReminderMatch("stretch", "10", "Minute"))
            && ParseDigits(m.value.digits) == 10
            && DurationAsWritten(m.value.unit, 10) == 0
            && Duration(m.value.unit, 10) == 10 * MinuteMs
  {
    CapitalMinutes();
    PlainText("stretch");
    ReminderRoundTrip("remind me to ", "stretch", "10", "Minutes");
    TenDigits();
    CapitalMinute();
  }

  /** `Minutes` with a capital is a spelling the pattern accepts, and it captures `Minute`. */
  lemma CapitalMinutes()
    ensures UnitSpelling("Minutes") && Singular("Minutes") == "Minute"
  {
    assert CiWord("Minutes", "minutes");
  }

  /** A word of lower-case letters is a one-line text that starts with a non-space. */
  lemma PlainText(t: string)
    requires t != [] && forall i :: 0 <= i < |t| ==> 'a' <= t[i] <= 'z'
    ensures !IsSpace(t[0]) && NoLineTerminator(t, 0, |t|)
  {
  }

  lemma TenDigits()
    ensures Digits("10") && ParseDigits("10") == 10
  {
  }

  /** The captured `Minute` fails every case-sensitive test, yet is a minute. */
  lemma CapitalMinute()
    ensures UnitWord("Minute")
    ensures DurationAsWritten("Minute", 10) == 0 && Duration("Minute", 10) == 10 * MinuteMs
  {
    assert "Minute"[0] != "second"[0] && "Minute"[0] != "minute"[0] && "Minute"[0] != "hour"[0];
    assert CiAt("Minute", 0, "minute");
  }

  /** What `scheduleTimeout` does with a reminder: deliver it now, or arm a timer. */
  datatype Timeout = DeliverNow | Arm(delay: int)

  /**
   `scheduleTimeout`: a reminder that is due is delivered at once; otherwise
   a timer is armed for the time left, clamped to the longest delay a timer
   accepts.
   */
  function TimeoutFor(r: Reminder, now: int): (t: Timeout)
    ensures t.DeliverNow? <==> r.timestamp <= now
    ensures t.Arm? ==> 0 < t.delay <= MaxDelay && now + t.delay <= r.timestamp
    ensures t.Arm? ==> now + t.delay == r.timestamp || t.delay == MaxDelay
  {
    var delay := r.timestamp - now;
    if delay <= 0 then DeliverNow
    else Arm(if delay < MaxDelay then delay else MaxDelay)
  }

  /** When the reminder is delivered when its timer's callback delivers it unconditionally. */
  function DeliveryTimeAsWritten(r: Reminder, now: int): int {
    match TimeoutFor(r, now)
    case DeliverNow => now
    case Arm(delay) => now + delay
  }

  /** A reminder more than 2^31 - 1 ms away is delivered before it is due, when the clamped timer fires. */
  lemma EarlyDeliveryAsWritten(r: Reminder, now: int)
    ensures DeliveryTimeAsWritten(r, now) < r.timestamp <==> r.timestamp - now > MaxDelay
  {
  }

  /**
   The time a reminder is delivered when each timer's callback re-checks the
   clock and re-arms until the reminder is due.
   */
  function DeliveryTime(r: Reminder, now: int): int
    decreases r.timestamp - now
  {
    match TimeoutFor(r, now)
    case DeliverNow => now
    case Arm(delay) => DeliveryTime(r, now + delay)
  }

  /** Re-arming delivers every reminder exactly when it is due, or at once when it already is. */
  lemma {:induction false} DeliveredOnTime(r: Reminder, now: int)
    ensures DeliveryTime(r, now) == if r.timestamp <= now then now else r.timestamp
    decreases r.timestamp - now
  {
    match TimeoutFor(r, now)
    case DeliverNow =>
    case Arm(delay) => DeliveredOnTime(r, now + delay);
  }
}
