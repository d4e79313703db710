/**
 * The home page of app/page.tsx: the greeting for the hour, the list of mood logs (newest
 * first, starting from the mock logs), today's log and the latest one. The clock is a parameter.
 */
module HomePage {
  import opened Wrappers
  import opened Calendar
  import opened MoodTypes
  import opened WeeklySummary

  /** The greeting for an hour of the day (0 to 23). */
  function Greeting(hour: int): (text: string)
    ensures hour < 12 ==> text == "Good morning"
    ensures 12 <= hour < 18 ==> text == "Good afternoon"
    ensures 18 <= hour ==> text == "Good evening"
  {
    if hour < 12 then "Good morning"
    else if hour < 18 then "Good afternoon"
    else "Good evening"
  }

  /** The label of the button next to "Today's Mood". */
  function LogButtonText(todays: Option<MoodLog>): string {
    if todays.Some? then "Update" else "Log"
  }

  class Home {
    var moodLogs: seq<MoodLog>
    var moodLoggerOpen: bool

    /** `load` is the time lib/mood-types.ts was loaded, when the mock logs were dated. */
    constructor (load: int)
      ensures moodLogs == MockMoodLogs(load) && !moodLoggerOpen
    {
      moodLogs := MockMoodLogs(load);
      moodLoggerOpen := false;
    }

    /** `todaysMoodLog`: the first log dated on the same day as `now`. */
    function TodaysMoodLog(now: int): Option<MoodLog>
      reads this
    {
      MoodLogForDay(moodLogs, now)
    }

    /** `latestMoodLog`: the first log of the list (undefined when it is empty). */
    function LatestMoodLog(): (r: Option<MoodLog>)
      reads this
      ensures r.None? <==> moodLogs == []
      ensures r.Some? ==> r.value == moodLogs[0]
    {
      if moodLogs == [] then None else Some(moodLogs[0])
    }

    /**
     * The "no mood logged today" card: shown exactly when no log falls on today, which is
     * exactly when the button reads "Log".
     */
    predicate EmptyStateShown(now: int)
      reads this
      ensures EmptyStateShown(now) <==> forall log :: log in moodLogs ==> !SameDay(log.date, now)
      ensures EmptyStateShown(now) <==> LogButtonText(TodaysMoodLog(now)) == "Log"
    {
      TodaysMoodLog(now).None?
    }

    /** Any button or cell that opens the logger. */
    method OpenLogger()
      modifies this
      ensures moodLoggerOpen && moodLogs == old(moodLogs)
    {
      moodLoggerOpen := true;
    }

    /** `onOpenChange` from the logger. */
    method SetLoggerOpen(open: bool)
      modifies this
      ensures moodLoggerOpen == open && moodLogs == old(moodLogs)
    {
      moodLoggerOpen := open;
    }

    /**
     * `handleSaveMood`: the new log goes in front of the others, which keep their order; it is
     * then the latest log, and today's log when it is dated today.
     */
    method HandleSaveMood(log: MoodLog, now: int)
      modifies this
      ensures moodLogs == [log] + old(moodLogs) && moodLoggerOpen == old(moodLoggerOpen)
      ensures |moodLogs| == |old(moodLogs)| + 1 && moodLogs[1..] == old(moodLogs)
      ensures LatestMoodLog() == Some(log)
      ensures SameDay(log.date, now) ==> TodaysMoodLog(now) == Some(log) && LogButtonText(TodaysMoodLog(now)) == "Update"
      ensures !SameDay(log.date, now) ==> TodaysMoodLog(now) == old(TodaysMoodLog(now))
    {
      moodLogs := [log] + moodLogs;
      assert moodLogs[1..] == old(moodLogs);
      PrependOnDay(log, old(moodLogs), now);
    }
  }

  /** Finding by day in a list with one log put in front. */
  lemma PrependOnDay(log: MoodLog, logs: seq<MoodLog>, t: int)
    ensures SameDay(log.date, t) ==> MoodLogForDay([log] + logs, t) == Some(log)
    ensures !SameDay(log.date, t) ==> MoodLogForDay([log] + logs, t) == MoodLogForDay(logs, t)
  {
    assert ([log] + logs)[1..] == logs;
  }

  /**
   * The mock logs, dated when they were loaded, show no log for today at any later render:
   * the latest of them is a day older than the load time.
   */
  lemma MockHasNoToday(load: int, now: int)
    requires load <= now
    ensures MoodLogForDay(MockMoodLogs(load), now).None?
  {
    var logs := MockMoodLogs(load);
    forall log | log in logs
      ensures !SameDay(log.date, now)
    {
      var i :| 0 <= i < 4 && logs[i] == log;
      var n := [6, 5, 3, 1][i];
      assert log.date == load + (-n) * DayMs;
      ShiftDays(load, -n);
      DayMonotone(load, now);
    }
  }

  /** A later time never falls on an earlier calendar day. */
  lemma DayMonotone(a: int, b: int)
    requires a <= b
    ensures DayOf(a) <= DayOf(b)
  {
    assert DayMs == 86400000;
  }
}
