/**
 * The prayer-time notification controller: matches the current hour and minute against
 * four fixed prayer times, shows at most one notification per minute, never while the
 * user is praying or while one is already visible, and offers a test notification.
 */
module PrayerNotifications {
  import opened Wrappers
  import opened Decimal

  datatype PrayerTime = PrayerTime(hour: nat, minute: nat, name: string)

  /** The built-in schedule: 6:00, 12:00, 18:00 and 21:00. */
  const DefaultPrayerTimes: seq<PrayerTime> := [
    PrayerTime(6, 0, "Morning Prayer"),
    PrayerTime(12, 0, "Midday Prayer"),
    PrayerTime(18, 0, "Evening Prayer"),
    PrayerTime(21, 0, "Night Prayer")
  ]

  const TestMessage: string := "🙏 Test Prayer Notification - May God bless you"

  /** The schedule as a plain set of (hour, minute) pairs, an independent statement of it. */
  predicate IsPrayerTime(hour: nat, minute: nat) {
    minute == 0 && (hour == 6 || hour == 12 || hour == 18 || hour == 21)
  }

  predicate Matches(t: PrayerTime, hour: nat, minute: nat) {
    t.hour == hour && t.minute == minute
  }

  /** `find`: the first entry of `times` at exactly (hour, minute), if any. */
  function FindPrayerTime(times: seq<PrayerTime>, hour: nat, minute: nat): (r: Option<PrayerTime>)
    ensures r.None? <==> forall i :: 0 <= i < |times| ==> !Matches(times[i], hour, minute)
    ensures r.Some? ==> (exists i :: 0 <= i < |times| && times[i] == r.value && Matches(r.value, hour, minute)
                                     && forall j :: 0 <= j < i ==> !Matches(times[j], hour, minute))
  {
    if times == [] then None
    else if Matches(times[0], hour, minute) then Some(times[0])
    else
      var r := FindPrayerTime(times[1..], hour, minute);
      assert r.Some? ==> (exists i :: 0 <= i < |times| && times[i] == r.value && Matches(r.value, hour, minute)
                                       && forall j :: 0 <= j < i ==> !Matches(times[j], hour, minute)) by {
        if r.Some? {
          var i :| 0 <= i < |times[1..]| && times[1..][i] == r.value && Matches(r.value, hour, minute)
            && forall j :: 0 <= j < i ==> !Matches(times[1..][j], hour, minute);
          assert times[i + 1] == r.value;
          assert forall j :: 0 <= j < i + 1 ==> !Matches(times[j], hour, minute) by {
            forall j | 0 <= j < i + 1 ensures !Matches(times[j], hour, minute) {
              if j > 0 {
                assert times[j] == times[1..][j - 1];
              }
            }
          }
        }
      }
      r
  }

  /** The search over the built-in schedule finds a time exactly at the four prayer times. */
  lemma DefaultScheduleIsTheFourTimes(hour: nat, minute: nat)
    ensures FindPrayerTime(DefaultPrayerTimes, hour, minute).Some? <==> IsPrayerTime(hour, minute)
  {
    if IsPrayerTime(hour, minute) {
      var i := if hour == 6 then 0 else if hour == 12 then 1 else if hour == 18 then 2 else 3;
      assert Matches(DefaultPrayerTimes[i], hour, minute);
    }
  }

  /** The key of a minute, as the template literal `${hour}:${minute}` prints it. */
  function TimeKey(hour: nat, minute: nat): (key: string)
    ensures |key| >= 3
  {
    NatToString(hour) + ":" + NatToString(minute)
  }

  lemma NoColonInDigits(s: string)
    requires AllDigits(s)
    ensures ':' !in s
  {
  }

  /** In `a + ":" + b` with no colon in `a`, the first colon stands right after `a`. */
  lemma FirstColonAt(a: string, b: string)
    requires ':' !in a
    ensures (a + ":" + b)[|a|] == ':'
    ensures forall i :: 0 <= i < |a| ==> (a + ":" + b)[i] != ':'
  {
  }

  lemma {:induction false} SplitAtColon(a: string, b: string, c: string, d: string)
    requires ':' !in a && ':' !in c
    requires a + ":" + b == c + ":" + d
    ensures a == c && b == d
  {
    var s := a + ":" + b;
    FirstColonAt(a, b);
    FirstColonAt(c, d);
    assert |a| == |c|;
    assert a == s[..|a|] == c;
    assert b == s[|a| + 1..] == d;
  }

  /** Different minutes have different keys, so the duplicate guard suppresses only the same minute. */
  lemma TimeKeyInjective(h1: nat, m1: nat, h2: nat, m2: nat)
    requires TimeKey(h1, m1) == TimeKey(h2, m2)
    ensures h1 == h2 && m1 == m2
  {
    NoColonInDigits(NatToString(h1));
    NoColonInDigits(NatToString(h2));
    SplitAtColon(NatToString(h1), NatToString(m1), NatToString(h2), NatToString(m2));
    NatToStringInjective(h1, h2);
    NatToStringInjective(m1, m2);
  }

  /** The controller's state; `lastNotification` is the key of the last minute a notification was shown. */
  datatype NotificationState = NotificationState(
    isPraying: bool,
    showNotification: bool,
    currentPrayerMessage: string,
    lastNotification: string,
    pendingTestTimers: nat)

  const InitialState: NotificationState := NotificationState(false, false, "", "", 0)

  /** A hidden notification carries no message. */
  predicate Consistent(s: NotificationState) {
    !s.showNotification ==> s.currentPrayerMessage == ""
  }

  /**
   * The periodic check at (hour, minute): nothing happens while praying, while a notification
   * is visible, or in the minute of the last notification; otherwise a prayer time shows
   * "Time for <label>" and records the minute, and any other time changes nothing.
   */
  function CheckPrayerTime(s: NotificationState, hour: nat, minute: nat): (r: NotificationState)
    ensures s.isPraying || s.showNotification || s.lastNotification == TimeKey(hour, minute) ==> r == s
    ensures !IsPrayerTime(hour, minute) ==> r == s
    ensures r != s <==>
      !s.isPraying && !s.showNotification && s.lastNotification != TimeKey(hour, minute) && IsPrayerTime(hour, minute)
    ensures r != s ==> (
      && r.showNotification && r.lastNotification == TimeKey(hour, minute)
      && r.isPraying == s.isPraying && r.pendingTestTimers == s.pendingTestTimers
      && (exists i :: 0 <= i < |DefaultPrayerTimes| && Matches(DefaultPrayerTimes[i], hour, minute)
                      && r.currentPrayerMessage == "Time for " + DefaultPrayerTimes[i].name))
  {
    DefaultScheduleIsTheFourTimes(hour, minute);
    if s.isPraying then s
    else if s.showNotification then s
    else
      var key := TimeKey(hour, minute);
      if s.lastNotification == key then s
      else
        match FindPrayerTime(DefaultPrayerTimes, hour, minute)
        case None => s
        case Some(prayer) =>
          s.(currentPrayerMessage := "Time for " + prayer.name, showNotification := true,
             lastNotification := key)
  }

  /** Hide the notification and clear its message; nothing else changes. */
  function HideNotification(s: NotificationState): (r: NotificationState)
    ensures !r.showNotification && r.currentPrayerMessage == ""
    ensures r.isPraying == s.isPraying && r.lastNotification == s.lastNotification
    ensures r.pendingTestTimers == s.pendingTestTimers
  {
    s.(showNotification := false, currentPrayerMessage := "")
  }

  /**
   * The first step of the test notification: ignored while praying; otherwise the current
   * notification is cleared and the 100 ms timer is scheduled. A visible notification does
   * not block it, and the last-notified minute is not touched.
   */
  function TriggerTestNotification(s: NotificationState): (r: NotificationState)
    ensures s.isPraying ==> r == s
    ensures !s.isPraying ==> r == HideNotification(s).(pendingTestTimers := s.pendingTestTimers + 1)
    ensures r.lastNotification == s.lastNotification
  {
    if s.isPraying then s
    else HideNotification(s).(pendingTestTimers := s.pendingTestTimers + 1)
  }

  /** The test notification's timer fires: the test message is shown. */
  function TestTimerFired(s: NotificationState): (r: NotificationState)
    requires s.pendingTestTimers > 0
    ensures r.showNotification && r.currentPrayerMessage == TestMessage
    ensures r.pendingTestTimers == s.pendingTestTimers - 1
    ensures r.isPraying == s.isPraying && r.lastNotification == s.lastNotification
  {
    s.(currentPrayerMessage := TestMessage, showNotification := true,
       pendingTestTimers := s.pendingTestTimers - 1)
  }

  /** Begin praying: the praying flag is set and a visible notification is hidden. */
  function StartPrayer(s: NotificationState): (r: NotificationState)
    ensures r.isPraying && !r.showNotification
    ensures s.showNotification ==> r == HideNotification(s).(isPraying := true)
    ensures !s.showNotification ==> r == s.(isPraying := true)
  {
    var praying := s.(isPraying := true);
    if s.showNotification then HideNotification(praying) else praying
  }

  /** Stop praying: only the praying flag changes. */
  function EndPrayer(s: NotificationState): (r: NotificationState)
    ensures !r.isPraying && r.(isPraying := s.isPraying) == s
  {
    s.(isPraying := false)
  }

  /** Every transition keeps a hidden notification free of a message. */
  lemma TransitionsKeepConsistent(s: NotificationState, hour: nat, minute: nat)
    requires Consistent(s)
    ensures Consistent(CheckPrayerTime(s, hour, minute))
    ensures Consistent(HideNotification(s)) && Consistent(TriggerTestNotification(s))
    ensures s.pendingTestTimers > 0 ==> Consistent(TestTimerFired(s))
    ensures Consistent(StartPrayer(s)) && Consistent(EndPrayer(s))
  {
  }

  /**
   * Once a prayer-time notification has been shown and dismissed, checking again in the
   * same minute shows nothing, while the next prayer time at a different minute is shown.
   */
  lemma OneNotificationPerPrayerTime(s: NotificationState, hour: nat, minute: nat, hour2: nat, minute2: nat)
    requires !s.isPraying && !s.showNotification && s.lastNotification != TimeKey(hour, minute)
    requires IsPrayerTime(hour, minute) && IsPrayerTime(hour2, minute2)
    requires hour2 != hour || minute2 != minute
    ensures var dismissed := HideNotification(CheckPrayerTime(s, hour, minute));
      CheckPrayerTime(dismissed, hour, minute) == dismissed &&
      CheckPrayerTime(dismissed, hour2, minute2).showNotification
  {
    var dismissed := HideNotification(CheckPrayerTime(s, hour, minute));
    assert dismissed.lastNotification == TimeKey(hour, minute);
    if TimeKey(hour2, minute2) == TimeKey(hour, minute) {
      TimeKeyInjective(hour2, minute2, hour, minute);
    }
  }

  /** The first prayer time after start-up is never suppressed as a duplicate. */
  lemma FirstPrayerTimeIsShown(hour: nat, minute: nat)
    requires IsPrayerTime(hour, minute)
    ensures CheckPrayerTime(InitialState, hour, minute).showNotification
  {
  }

  /** Worked checks: 18:00 shows the evening prayer; 18:01 shows nothing. */
  lemma CheckExamples()
    ensures CheckPrayerTime(InitialState, 18, 0).currentPrayerMessage == "Time for Evening Prayer"
    ensures CheckPrayerTime(InitialState, 18, 1) == InitialState
  {
    assert Matches(DefaultPrayerTimes[2], 18, 0);
    assert !Matches(DefaultPrayerTimes[0], 18, 0) && !Matches(DefaultPrayerTimes[1], 18, 0);
  }

  /** The provider's state, changed by its callbacks and by the test notification's timer. */
  class PrayerNotificationProvider {
    var isPraying: bool
    var showNotification: bool
    var currentPrayerMessage: string
    var lastNotification: string
    var pendingTestTimers: nat

    function State(): NotificationState
      reads this
    {
      NotificationState(isPraying, showNotification, currentPrayerMessage, lastNotification, pendingTestTimers)
    }

    /** Nothing shown, not praying, no minute notified yet. */
    constructor ()
      ensures State() == InitialState
    {
      isPraying, showNotification, currentPrayerMessage, lastNotification, pendingTestTimers :=
        false, false, "", "", 0;
    }

    /** The periodic check, with the clock's hour and minute passed in. */
    method CheckPrayerTimeAt(hour: nat, minute: nat)
      modifies this
      ensures State() == CheckPrayerTime(old(State()), hour, minute)
    {
      if isPraying {
        return;
      }
      if showNotification {
        return;
      }
      var key := TimeKey(hour, minute);
      if lastNotification == key {
        return;
      }
      var matching := FindPrayerTime(DefaultPrayerTimes, hour, minute);
      if matching.Some? {
        currentPrayerMessage := "Time for " + matching.value.name;
        showNotification := true;
        lastNotification := key;
      }
    }

    method Hide()
      modifies this
      ensures State() == HideNotification(old(State()))
    {
      showNotification := false;
      currentPrayerMessage := "";
    }

    method TriggerTest()
      modifies this
      ensures State() == TriggerTestNotification(old(State()))
    {
      if isPraying {
        return;
      }
      showNotification := false;
      currentPrayerMessage := "";
      pendingTestTimers := pendingTestTimers + 1;
    }

    /** One of the scheduled 100 ms test timers fires. */
    method OnTestTimeout()
      requires pendingTestTimers > 0
      modifies this
      ensures State() == TestTimerFired(old(State()))
    {
      currentPrayerMessage := TestMessage;
      showNotification := true;
      pendingTestTimers := pendingTestTimers - 1;
    }

    method Start()
      modifies this
      ensures State() == StartPrayer(old(State()))
    {
      isPraying := true;
      if showNotification {
        Hide();
      }
    }

    method End()
      modifies this
      ensures State() == EndPrayer(old(State()))
    {
      isPraying := false;
    }
  }
}
