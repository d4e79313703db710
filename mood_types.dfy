/**
 * Clock readings and calendar days. `Date` values are millisecond timestamps; a calendar day
 * is a whole number of days since the epoch, so time zones and daylight saving are not modelled.
 */
module Calendar {
  const DayMs := 24 * 60 * 60 * 1000

  /** The calendar day a timestamp falls on (rounding down, also before the epoch). */
  function DayOf(t: int): int {
    t / DayMs
  }

  /** `isSameDay` and equal `toDateString()`s: both timestamps fall on the same calendar day. */
  predicate SameDay(a: int, b: int) {
    DayOf(a) == DayOf(b)
  }

  /** Moving a timestamp by whole days moves its calendar day by as many. */
  lemma ShiftDays(t: int, n: int)
    ensures DayOf(t + n * DayMs) == DayOf(t) + n
  {
    var q, r := t / DayMs, t % DayMs;
    assert t == q * DayMs + r && 0 <= r < DayMs;
    assert t + n * DayMs == (q + n) * DayMs + r;
  }
}

/**
 * The mood scale of lib/mood-types.ts: a slider value (0 to 100, but any integer is accepted)
 * falls in one of seven bands, each with a label, a colour, a background colour and three
 * descriptors; and the four mock logs the home page starts with.
 */
module MoodTypes {
  import opened Wrappers
  import opened Calendar

  datatype MoodLog = MoodLog(
    id: string,
    date: int,
    moodValue: int,
    moodLabel: string,
    moodColor: string,
    tags: Option<seq<string>>,
    notes: Option<string>)

  /** The lower bounds of bands 1 to 6; band 0 has none. */
  const Thresholds: seq<int> := [15, 30, 45, 55, 70, 85]

  const Labels: seq<string> := [
    "Very Unpleasant", "Unpleasant", "Slightly Unpleasant", "Neutral",
    "Slightly Pleasant", "Pleasant", "Very Pleasant"]

  const Colors: seq<string> := [
    "#8a56e8", "#5b7bf7", "#4a9be8", "#5dc7c2", "#7ac555", "#a8d06c", "#f0b840"]

  const Backgrounds: seq<string> := [
    "#e2d9f7", "#dce4fd", "#d9ebfd", "#e6f7f6", "#e8f7df", "#f0f9e6", "#fdf6e6"]

  /** How many of the thresholds `v` has reached. */
  function Reached(ts: seq<int>, v: int): (n: nat)
    ensures n <= |ts|
  {
    if ts == [] then 0
    else (if ts[0] <= v then 1 else 0) + Reached(ts[1..], v)
  }

  /** The band of a mood value, 0 (lowest) to 6: the number of thresholds it has reached. */
  function Band(moodValue: int): (b: nat)
    ensures b < 7
  {
    Reached(Thresholds, moodValue)
  }

  function GetMoodLabel(moodValue: int): (name: string)
    ensures name == Labels[Band(moodValue)]
  {
    BandCases(moodValue);
    if moodValue < 15 then "Very Unpleasant"
    else if moodValue < 30 then "Unpleasant"
    else if moodValue < 45 then "Slightly Unpleasant"
    else if moodValue < 55 then "Neutral"
    else if moodValue < 70 then "Slightly Pleasant"
    else if moodValue < 85 then "Pleasant"
    else "Very Pleasant"
  }

  function GetMoodColor(moodValue: int): (color: string)
    ensures color == Colors[Band(moodValue)]
  {
    BandCases(moodValue);
    if moodValue < 15 then "#8a56e8"
    else if moodValue < 30 then "#5b7bf7"
    else if moodValue < 45 then "#4a9be8"
    else if moodValue < 55 then "#5dc7c2"
    else if moodValue < 70 then "#7ac555"
    else if moodValue < 85 then "#a8d06c"
    else "#f0b840"
  }

  function GetMoodBackgroundColor(moodValue: int): (color: string)
    ensures color == Backgrounds[Band(moodValue)]
  {
    BandCases(moodValue);
    if moodValue < 15 then "#e2d9f7"
    else if moodValue < 30 then "#dce4fd"
    else if moodValue < 45 then "#d9ebfd"
    else if moodValue < 55 then "#e6f7f6"
    else if moodValue < 70 then "#e8f7df"
    else if moodValue < 85 then "#f0f9e6"
    else "#fdf6e6"
  }

  /** Three words for the band. */
  function GetMoodDescriptors(moodValue: int): (words: seq<string>)
    ensures |words| == 3
    ensures words == GetMoodDescriptorsOf(Band(moodValue))
  {
    BandCases(moodValue);
    if moodValue < 15 then ["Distressed", "Miserable", "Overwhelmed"]
    else if moodValue < 30 then ["Sad", "Anxious", "Frustrated"]
    else if moodValue < 45 then ["Uneasy", "Concerned", "Tired"]
    else if moodValue < 55 then ["Calm", "Balanced", "Okay"]
    else if moodValue < 70 then ["Content", "Relaxed", "Satisfied"]
    else if moodValue < 85 then ["Happy", "Optimistic", "Energetic"]
    else ["Grateful", "Joyful", "Excited"]
  }

  function GetMoodDescriptorsOf(band: nat): seq<string>
    requires band < 7
  {
    [["Distressed", "Miserable", "Overwhelmed"], ["Sad", "Anxious", "Frustrated"],
     ["Uneasy", "Concerned", "Tired"], ["Calm", "Balanced", "Okay"],
     ["Content", "Relaxed", "Satisfied"], ["Happy", "Optimistic", "Energetic"],
     ["Grateful", "Joyful", "Excited"]][band]
  }

  /** The band in terms of the if-chains' tests. */
  lemma BandCases(v: int)
    ensures v < 15 ==> Band(v) == 0
    ensures 15 <= v < 30 ==> Band(v) == 1
    ensures 30 <= v < 45 ==> Band(v) == 2
    ensures 45 <= v < 55 ==> Band(v) == 3
    ensures 55 <= v < 70 ==> Band(v) == 4
    ensures 70 <= v < 85 ==> Band(v) == 5
    ensures 85 <= v ==> Band(v) == 6
  {
    var t1, t2, t3, t4, t5: seq<int> := [30, 45, 55, 70, 85], [45, 55, 70, 85], [55, 70, 85], [70, 85], [85];
    assert Thresholds[1..] == t1 && t1[1..] == t2 && t2[1..] == t3 && t3[1..] == t4 && t4[1..] == t5;
    assert Reached(t5, v) == (if 85 <= v then 1 else 0) + Reached([], v);
    assert Reached(t4, v) == (if 70 <= v then 1 else 0) + Reached(t5, v);
    assert Reached(t3, v) == (if 55 <= v then 1 else 0) + Reached(t4, v);
    assert Reached(t2, v) == (if 45 <= v then 1 else 0) + Reached(t3, v);
    assert Reached(t1, v) == (if 30 <= v then 1 else 0) + Reached(t2, v);
  }

  /** A higher mood value never falls in a lower band. */
  lemma {:induction false} ReachedMonotone(ts: seq<int>, a: int, b: int)
    requires a <= b
    ensures Reached(ts, a) <= Reached(ts, b)
  {
    if ts != [] {
      ReachedMonotone(ts[1..], a, b);
    }
  }

  lemma BandMonotone(a: int, b: int)
    requires a <= b
    ensures Band(a) <= Band(b)
  {
    ReachedMonotone(Thresholds, a, b);
  }

  /** The seven labels, colours and backgrounds are each pairwise different. */
  lemma TablesDistinct()
    ensures forall i, j :: 0 <= i < j < 7 ==> Labels[i] != Labels[j]
    ensures forall i, j :: 0 <= i < j < 7 ==> Colors[i] != Colors[j]
    ensures forall i, j :: 0 <= i < j < 7 ==> Backgrounds[i] != Backgrounds[j]
  {
  }

  /** So the label of a value determines its colour, background and descriptors, and back. */
  lemma LabelDeterminesBand(a: int, b: int)
    ensures GetMoodLabel(a) == GetMoodLabel(b) <==> Band(a) == Band(b)
    ensures GetMoodLabel(a) == GetMoodLabel(b) <==> GetMoodColor(a) == GetMoodColor(b)
    ensures GetMoodLabel(a) == GetMoodLabel(b) ==>
      GetMoodBackgroundColor(a) == GetMoodBackgroundColor(b) && GetMoodDescriptors(a) == GetMoodDescriptors(b)
  {
    TablesDistinct();
  }

  /** Every value below 15 is "Very Unpleasant" and every value from 85 up is "Very Pleasant". */
  lemma LabelsTotal(v: int)
    ensures v < 15 ==> GetMoodLabel(v) == "Very Unpleasant"
    ensures v >= 85 ==> GetMoodLabel(v) == "Very Pleasant"
  {
  }

  /** The mock logs, dated relative to the current time `now`. */
  function MockMoodLogs(now: int): seq<MoodLog> {
    [ MoodLog("1", now - 6 * DayMs, 85, "Very Pleasant", "#f0b840",
        Some(["Family", "Relaxation", "Outdoors"]), Some("Had a great day at the park with family.")),
      MoodLog("2", now - 5 * DayMs, 65, "Slightly Pleasant", "#7ac555",
        Some(["Work", "Achievement"]), Some("Completed a big project at work.")),
      MoodLog("3", now - 3 * DayMs, 50, "Neutral", "#5dc7c2",
        Some(["Routine", "Rest"]), Some("Just an ordinary day.")),
      MoodLog("4", now - 1 * DayMs, 30, "Unpleasant", "#5b7bf7",
        Some(["Stress", "Work", "Health"]), Some("Feeling under the weather and " + "work was stressful.")) ]
  }

  /** A log whose label and colour are those of its mood value. */
  predicate Consistent(log: MoodLog) {
    log.moodLabel == GetMoodLabel(log.moodValue) && log.moodColor == GetMoodColor(log.moodValue)
  }

  /**
   * The first three mock logs are consistent; the fourth, at value 30, carries the label and
   * colour of the band below ("Unpleasant") instead of "Slightly Unpleasant".
   */
  lemma MockLabels(now: int)
    ensures var logs := MockMoodLogs(now);
      && |logs| == 4
      && Consistent(logs[0]) && Consistent(logs[1]) && Consistent(logs[2])
      && !Consistent(logs[3])
      && GetMoodLabel(logs[3].moodValue) == "Slightly Unpleasant"
      && logs[3].moodLabel == GetMoodLabel(29) && logs[3].moodColor == GetMoodColor(29)
  {
  }
}
