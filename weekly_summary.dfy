/**
 * The weekly strip of components/weekly-mood-summary.tsx: the five days ending today, each
 * showing the first mood log of that day, and a "Log" button on today's cell when today has
 * none. Days are taken back by whole days of milliseconds (`subDays`).
 */
module WeeklySummary {
  import opened Wrappers
  import opened Calendar
  import opened MoodTypes

  /** The index of the first log dated on the same day as `t`, or -1. */
  function IndexOnDay(logs: seq<MoodLog>, t: int): (i: int)
    ensures -1 <= i < |logs|
    ensures i >= 0 ==> SameDay(logs[i].date, t)
    ensures forall j :: 0 <= j < |logs| && (i < 0 || j < i) ==> !SameDay(logs[j].date, t)
  {
    if logs == [] then -1
    else if SameDay(logs[0].date, t) then 0
    else
      var k := IndexOnDay(logs[1..], t);
      if k < 0 then -1 else k + 1
  }

  /** `getMoodLogForDay`: `moodLogs.find` with `isSameDay`. */
  function MoodLogForDay(logs: seq<MoodLog>, t: int): (r: Option<MoodLog>)
    ensures r.None? <==> forall log :: log in logs ==> !SameDay(log.date, t)
    ensures r.Some? ==> r.value in logs && SameDay(r.value.date, t)
  {
    var i := IndexOnDay(logs, t);
    if i < 0 then None else Some(logs[i])
  }

  /** The list shown when the caller passes none. */
  function LogsOrDefault(moodLogs: Option<seq<MoodLog>>, now: int): (logs: seq<MoodLog>)
    ensures moodLogs.None? ==> logs == MockMoodLogs(now)
    ensures moodLogs.Some? ==> logs == moodLogs.value
  {
    match moodLogs
    case None => MockMoodLogs(now)
    case Some(given) => given
  }

  /**
   * The mount effect: today and the four days before it, oldest first, and the index of
   * today among them (the state starts at 0).
   */
  method WeekDays(today: int) returns (days: seq<int>, todayIndex: int)
    ensures |days| == 5 && todayIndex == 4
    ensures forall k :: 0 <= k < 5 ==> days[k] == today - (4 - k) * DayMs
    ensures forall k :: 0 <= k < 5 ==> DayOf(days[k]) == DayOf(today) - (4 - k)
    ensures days[todayIndex] == today
  {
    todayIndex := 0;
    days := [];
    for n := 5 downto 0
      invariant |days| == 5 - n
      invariant forall k :: 0 <= k < |days| ==> days[k] == today - (4 - k) * DayMs
      invariant forall k :: 0 <= k < |days| ==> DayOf(days[k]) == DayOf(today) - (4 - k)
      invariant todayIndex == (if n == 0 then 4 else 0)
    {
      var i := n;
      var day := today - i * DayMs;
      ShiftDays(today, -i);
      days := days + [day];
      if SameDay(day, today) {
        todayIndex := 4 - i;
      }
    }
  }

  /** Whether cell `index` shows the "Log" button (and takes the click): today's cell, without a log. */
  predicate ShowsLogButton(logs: seq<MoodLog>, days: seq<int>, todayIndex: int, index: nat)
    requires index < |days|
  {
    index == todayIndex && MoodLogForDay(logs, days[index]).None?
  }

  /** In the strip, only today's cell can offer the button, and it does when today has no log. */
  lemma LogButtonOnlyToday(logs: seq<MoodLog>, today: int, index: nat)
    requires index < 5
    ensures var days := seq(5, k => today - (4 - k) * DayMs);
      ShowsLogButton(logs, days, 4, index) <==>
        index == 4 && forall log :: log in logs ==> !SameDay(log.date, today)
  {
    var days := seq(5, k => today - (4 - k) * DayMs);
    assert days[4] == today;
  }
}
