/**
 * What the mood-log card of components/mood-log-detail.tsx shows of a log: the heading, the
 * descriptor line, at most three tags with a count of the rest, and the note when there is
 * one. Colours, the clock format and the layout are not modelled.
 */
module MoodLogDetail {
  import opened Wrappers
  import opened Strings
  import opened MoodTypes
  import MoodLogger

  const MaxShownTags := 3

  /** The heading: the log's label followed by " Day". */
  function Heading(log: MoodLog): string {
    log.moodLabel + " Day"
  }

  /**
   * Two cards of logs whose label agrees with their value have the same heading exactly when
   * the values are in the same band, and then the same colour and descriptor line too.
   */
  lemma HeadingShowsBand(a: MoodLog, b: MoodLog)
    requires Consistent(a) && Consistent(b)
    ensures Heading(a) == Heading(b) <==> Band(a.moodValue) == Band(b.moodValue)
    ensures Heading(a) == Heading(b) ==> a.moodColor == b.moodColor && DescriptorLine(a.moodValue) == DescriptorLine(b.moodValue)
  {
  }

  /** `getMoodDescriptors(moodValue).join(", ")`. */
  function DescriptorLine(moodValue: int): (line: string)
    ensures var words := GetMoodDescriptors(moodValue);
      line == words[0] + ", " + words[1] + ", " + words[2]
  {
    var words := GetMoodDescriptors(moodValue);
    assert words[1..][1..] == [words[2]];
    Join(words, ", ")
  }

  /** The tag area is rendered when the log has tags and they are not empty. */
  predicate TagAreaShown(log: MoodLog) {
    log.tags.Some? && |log.tags.value| > 0
  }

  /** The tags drawn: `tags.slice(0, 3)`, inside a shown tag area. */
  function ShownTags(log: MoodLog): (shown: seq<string>)
    ensures !TagAreaShown(log) ==> shown == []
    ensures TagAreaShown(log) ==> shown <= log.tags.value && |shown| == Min(|log.tags.value|, MaxShownTags)
  {
    if !TagAreaShown(log) then []
    else if |log.tags.value| <= MaxShownTags then log.tags.value
    else log.tags.value[..MaxShownTags]
  }

  function Min(a: int, b: int): int {
    if a <= b then a else b
  }

  /** The N of the "+N more" badge, which appears only with more than three tags. */
  function MoreCount(log: MoodLog): (more: Option<nat>)
    ensures more.Some? <==> TagAreaShown(log) && |log.tags.value| > MaxShownTags
  {
    if TagAreaShown(log) && |log.tags.value| > MaxShownTags then Some(|log.tags.value| - MaxShownTags)
    else None
  }

  /** The drawn tags and the badge's count account for every tag, each once. */
  lemma TagsAccounted(log: MoodLog)
    requires TagAreaShown(log)
    ensures var more := MoreCount(log);
      |ShownTags(log)| + (if more.Some? then more.value else 0) == |log.tags.value|
    ensures MoreCount(log).Some? ==> ShownTags(log) + log.tags.value[MaxShownTags..] == log.tags.value
  {
  }

  /** The note is rendered when it is present and not the empty string. */
  predicate NotesShown(log: MoodLog) {
    log.notes.Some? && log.notes.value != ""
  }

  /**
   * For a log saved by the mood logger, the note is shown exactly when what was typed is not
   * all white space, and what is shown is the typed text trimmed.
   */
  lemma SavedNotesShown(id: string, date: int, moodValue: int, moodLabel: string,
                        moodColor: string, tags: seq<string>, notes: string)
    ensures var log := MoodLogger.NewMoodLog(id, date, moodValue, moodLabel, moodColor, tags, notes);
      (NotesShown(log) <==> !AllSpace(notes)) && (NotesShown(log) ==> log.notes.value == Trim(notes))
  {
  }
}
