/** The time tracker of the task-detail page: a running session counted in
    seconds, the list of finished sessions and their totals. */
module TimeTracking {
  import opened Common
  import opened DetailTask

  /** Hours, minutes and seconds of a duration in seconds. */
  function Hms(seconds: nat): (r: (nat, nat, nat))
    ensures r.0 * 3600 + r.1 * 60 + r.2 == seconds
    ensures r.1 < 60 && r.2 < 60
  {
    (seconds / 3600, (seconds % 3600) / 60, seconds % 60)
  }

  /** The split is the only one with minutes and seconds under 60. */
  lemma HmsUnique(seconds: nat, h: nat, m: nat, s: nat)
    requires h * 3600 + m * 60 + s == seconds && m < 60 && s < 60
    ensures Hms(seconds) == (h, m, s)
  {
    var r := Hms(seconds);
    assert m * 60 + s < 3600;
    assert r.1 * 60 + r.2 < 3600;
  }

  /** No decimal digit is a unit letter. */
  lemma NoLetterInNumber(n: nat, c: char)
    requires !IsDigit(c)
    ensures c !in NatToString(n)
  {
  }

  /** `formatTime`: the running clock, "1h 2m 3s", "2m 3s" or "3s". */
  function FormatTime(seconds: nat): (r: string)
    ensures ('h' in r) <==> seconds >= 3600
    ensures ('m' in r) <==> seconds >= 60
    ensures var s := NatToString(seconds % 60) + "s"; |s| <= |r| && r[|r| - |s|..] == s
  {
    var (h, m, s) := Hms(seconds);
    NoLetterInNumber(h, 'h'); NoLetterInNumber(m, 'h'); NoLetterInNumber(s, 'h');
    NoLetterInNumber(h, 'm'); NoLetterInNumber(m, 'm'); NoLetterInNumber(s, 'm');
    var secs := NatToString(s) + "s";
    var r :=
      if h > 0 then NatToString(h) + "h " + NatToString(m) + "m " + secs
      else if m > 0 then NatToString(m) + "m " + secs
      else secs;
    assert r[|r| - |secs|..] == secs;
    r
  }

  /** `formatDuration`: whole hours and minutes, never seconds. */
  function FormatDuration(seconds: nat): (r: string)
    ensures 's' !in r
    ensures ('h' in r) <==> seconds >= 3600
    ensures var m := NatToString((seconds % 3600) / 60) + "m"; |m| <= |r| && r[|r| - |m|..] == m
  {
    var (h, m, _) := Hms(seconds);
    NoLetterInNumber(h, 'h'); NoLetterInNumber(m, 'h');
    NoLetterInNumber(h, 's'); NoLetterInNumber(m, 's');
    var mins := NatToString(m) + "m";
    var r := if h > 0 then NatToString(h) + "h " + mins else mins;
    assert r[|r| - |mins|..] == mins;
    r
  }

  /** The running clock spells out the whole hours, the minutes left over
      and the seconds left over, dropping the leading parts that are zero. */
  lemma FormatTimeParts(seconds: nat)
    ensures seconds >= 3600 ==>
      FormatTime(seconds) == NatToString(seconds / 3600) + "h " + NatToString((seconds % 3600) / 60) + "m " + NatToString(seconds % 60) + "s"
    ensures 60 <= seconds < 3600 ==> FormatTime(seconds) == NatToString(seconds / 60) + "m " + NatToString(seconds % 60) + "s"
    ensures seconds < 60 ==> FormatTime(seconds) == NatToString(seconds) + "s"
  {
    if seconds >= 3600 {
      ClockWithHours(seconds);
    } else if seconds >= 60 {
      ClockWithMinutes(seconds);
    } else {
      SplitThresholds(seconds);
    }
  }

  /** From an hour on, the clock shows all three parts. */
  lemma ClockWithHours(seconds: nat)
    requires seconds >= 3600
    ensures FormatTime(seconds) ==
      NatToString(seconds / 3600) + "h " + NatToString((seconds % 3600) / 60) + "m " + NatToString(seconds % 60) + "s"
  {
    SplitThresholds(seconds);
  }

  /** Under an hour but from a minute on, the clock shows minutes and seconds. */
  lemma ClockWithMinutes(seconds: nat)
    requires 60 <= seconds < 3600
    ensures FormatTime(seconds) == NatToString(seconds / 60) + "m " + NatToString(seconds % 60) + "s"
  {
    SplitThresholds(seconds);
  }

  /** A duration spells out the whole hours, when there is one, and the
      minutes left over. */
  lemma FormatDurationParts(seconds: nat)
    ensures seconds >= 3600 ==>
      FormatDuration(seconds) == NatToString(seconds / 3600) + "h " + NatToString((seconds % 3600) / 60) + "m"
    ensures seconds < 3600 ==> FormatDuration(seconds) == NatToString(seconds / 60) + "m"
  {
    SplitThresholds(seconds);
    var h, m := seconds / 3600, (seconds % 3600) / 60;
    var mins := NatToString(m) + "m";
    assert FormatDuration(seconds) == if h > 0 then NatToString(h) + "h " + mins else mins;
  }

  /** Where the hour and minute parts of a split start to be non-zero. */
  lemma SplitThresholds(seconds: nat)
    ensures Hms(seconds) == (seconds / 3600, (seconds % 3600) / 60, seconds % 60)
    ensures seconds / 3600 > 0 <==> seconds >= 3600
    ensures seconds < 3600 ==> seconds % 3600 == seconds && (seconds / 60 > 0 <==> seconds >= 60)
  {
  }

  /** The sum of the sessions' durations. */
  function TotalDuration(sessions: seq<Session>): nat
  {
    if sessions == [] then 0 else sessions[0].duration + TotalDuration(sessions[1..])
  }

  /** Totals add up over a split list. */
  lemma {:induction false} TotalDurationAppend(a: seq<Session>, b: seq<Session>)
    ensures TotalDuration(a + b) == TotalDuration(a) + TotalDuration(b)
  {
    if a == [] {
      assert a + b == b;
    } else {
      assert (a + b)[0] == a[0];
      assert (a + b)[1..] == a[1..] + b;
      TotalDurationAppend(a[1..], b);
    }
  }

  /** The sessions recorded on the same day as `now`. */
  function SessionsToday(sessions: seq<Session>, now: int): (r: seq<Session>)
    ensures forall s :: s in r <==> s in sessions && s.date / 86_400_000 == now / 86_400_000
  {
    if sessions == [] then []
    else
      var rest := SessionsToday(sessions[1..], now);
      if sessions[0].date / 86_400_000 == now / 86_400_000 then [sessions[0]] + rest else rest
  }

  /** Today's time never exceeds the total time. */
  lemma {:induction false} TodayWithinTotal(sessions: seq<Session>, now: int)
    ensures TotalDuration(SessionsToday(sessions, now)) <= TotalDuration(sessions)
  {
    if sessions != [] {
      TodayWithinTotal(sessions[1..], now);
      var rest := SessionsToday(sessions[1..], now);
      if sessions[0].date / 86_400_000 == now / 86_400_000 {
        assert SessionsToday(sessions, now) == [sessions[0]] + rest;
        assert ([sessions[0]] + rest)[1..] == rest;
      }
    }
  }

  /** The "Recent Sessions" list: the last five, newest first. */
  function RecentSessions(sessions: seq<Session>): (r: seq<Session>)
    ensures |r| == (if |sessions| < 5 then |sessions| else 5)
    ensures forall i :: 0 <= i < |r| ==> r[i] == sessions[|sessions| - 1 - i]
  {
    Reverse(TakeLast(sessions, 5))
  }

  class TimeTracking {
    var isTracking: bool
    var currentSession: nat
    var totalTime: nat
    var sessions: seq<Session>

    constructor (task: DetailTask)
      ensures !isTracking && currentSession == 0
      ensures totalTime == task.totalTime && sessions == task.timeSessions
    {
      isTracking := false;
      currentSession := 0;
      totalTime := task.totalTime;
      sessions := task.timeSessions;
    }

    /** One second of the interval that runs while tracking. */
    method Tick()
      modifies this
      ensures currentSession == (if old(isTracking) then old(currentSession) + 1 else old(currentSession))
      ensures isTracking == old(isTracking) && totalTime == old(totalTime) && sessions == old(sessions)
    {
      if isTracking {
        currentSession := currentSession + 1;
      }
    }

    /** `handleStartStop`. Stopping a non-empty session records it, adds it
        to the total and hands the task on; the session counter always goes
        back to zero when stopping, so the displayed total time is the same
        before and after. */
    method StartStop(task: DetailTask, now: int) returns (update: Option<DetailTask>)
      modifies this
      ensures isTracking == !old(isTracking)
      ensures old(isTracking) ==> currentSession == 0
      ensures !old(isTracking) ==> currentSession == old(currentSession)
      ensures old(isTracking) && old(currentSession) > 0 ==>
        sessions == old(sessions) + [Session(now, old(currentSession), now, "Work session")]
        && totalTime == old(totalTime) + old(currentSession)
        && update == Some(task.(timeSessions := sessions, totalTime := totalTime))
      ensures !(old(isTracking) && old(currentSession) > 0) ==>
        sessions == old(sessions) && totalTime == old(totalTime) && update == None
      ensures TotalDuration(sessions) + currentSession == TotalDuration(old(sessions)) + old(currentSession)
    {
      update := None;
      if isTracking {
        if currentSession > 0 {
          var added := Session(now, currentSession, now, "Work session");
          TotalDurationAppend(sessions, [added]);
          assert TotalDuration([added]) == currentSession;
          sessions := sessions + [added];
          totalTime := totalTime + currentSession;
          update := Some(task.(timeSessions := sessions, totalTime := totalTime));
        }
        currentSession := 0;
      }
      isTracking := !isTracking;
    }
  }
}
