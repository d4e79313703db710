/**
 * The mood-logger dialog of components/mood-logger-modal.tsx: a four-step wizard (intro,
 * select, details, confirm) over a slider value, a set of tags and a note, which builds a
 * mood log on save and resets itself.
 *
 * The component's state hooks are the fields of `MoodLogger`. The effect that recomputes the
 * label and colours whenever the slider value changes runs inside `SetMoodValue`, so the
 * invariant `Valid` says they always agree with the value. The `open` prop, which the parent
 * owns, is a field too: `onOpenChange(false)` clears it. The entry animation and its timer are
 * not modelled.
 */
module MoodLogger {
  import opened Wrappers
  import opened Strings
  import opened MoodTypes

  datatype Step = Intro | Select | Details | Confirm

  /** What "Next" does: the following step, or `None` on the confirm step, where it saves. */
  function Advance(step: Step): (next: Option<Step>)
    ensures next.None? <==> step == Confirm
  {
    match step
    case Intro => Some(Select)
    case Select => Some(Details)
    case Details => Some(Confirm)
    case Confirm => None
  }

  /** What "Back" does: the previous step; the intro step has none and stays. */
  function Back(step: Step): Step {
    match step
    case Select => Intro
    case Details => Select
    case Confirm => Details
    case Intro => Intro
  }

  /** "Back" undoes "Next" wherever "Next" moves. */
  lemma BackUndoesAdvance(step: Step)
    requires step != Confirm
    ensures Back(Advance(step).value) == step
  {
  }

  predicate Distinct(tags: seq<string>) {
    forall i, j :: 0 <= i < j < |tags| ==> tags[i] != tags[j]
  }

  /** `tags.filter((t) => t !== tag)`. */
  function Without(tags: seq<string>, tag: string): (r: seq<string>)
    ensures |r| <= |tags|
  {
    if tags == [] then []
    else (if tags[0] == tag then [] else [tags[0]]) + Without(tags[1..], tag)
  }

  lemma {:induction false} WithoutMembers(tags: seq<string>, tag: string)
    ensures forall t :: t in Without(tags, tag) <==> t in tags && t != tag
  {
    if tags != [] {
      WithoutMembers(tags[1..], tag);
      assert tags == [tags[0]] + tags[1..];
    }
  }

  lemma {:induction false} WithoutDistinct(tags: seq<string>, tag: string)
    requires Distinct(tags)
    ensures Distinct(Without(tags, tag))
  {
    if tags != [] {
      var tail := tags[1..];
      assert Distinct(tail) by {
        forall i, j | 0 <= i < j < |tail|
          ensures tail[i] != tail[j]
        {
          assert tail[i] == tags[i + 1] && tail[j] == tags[j + 1];
        }
      }
      WithoutDistinct(tail, tag);
      WithoutMembers(tail, tag);
      var rest := Without(tail, tag);
      if tags[0] != tag {
        assert tags[0] !in rest by {
          forall k | 0 <= k < |tail|
            ensures tail[k] != tags[0]
          {
            assert tail[k] == tags[k + 1];
          }
        }
        var r := [tags[0]] + rest;
        forall i, j | 0 <= i < j < |r|
          ensures r[i] != r[j]
        {
          assert r[j] == rest[j - 1];
          if i > 0 {
            assert r[i] == rest[i - 1];
          }
        }
      }
    }
  }

  /** Removing a tag that is not there changes nothing. */
  lemma {:induction false} WithoutAbsent(tags: seq<string>, tag: string)
    requires tag !in tags
    ensures Without(tags, tag) == tags
  {
    if tags != [] {
      WithoutAbsent(tags[1..], tag);
      assert tags == [tags[0]] + tags[1..];
    }
  }

  /** Filtering distributes over appending one element. */
  lemma {:induction false} WithoutSnoc(tags: seq<string>, x: string, tag: string)
    ensures Without(tags + [x], tag) == Without(tags, tag) + (if x == tag then [] else [x])
  {
    if tags == [] {
      assert [] + [x] == [x];
    } else {
      assert (tags + [x])[1..] == tags[1..] + [x];
      WithoutSnoc(tags[1..], x, tag);
    }
  }

  /** `toggleTag`'s new list: without the tag if it was selected, else with it appended. */
  function Toggle(tags: seq<string>, tag: string): seq<string> {
    if tag in tags then Without(tags, tag) else tags + [tag]
  }

  /** Toggling flips the tag's membership and keeps every other tag's. */
  lemma ToggleMembers(tags: seq<string>, tag: string)
    ensures tag in Toggle(tags, tag) <==> tag !in tags
    ensures forall t :: t != tag ==> (t in Toggle(tags, tag) <==> t in tags)
  {
    WithoutMembers(tags, tag);
  }

  /** Toggling keeps a list without repeats without repeats. */
  lemma ToggleDistinct(tags: seq<string>, tag: string)
    requires Distinct(tags)
    ensures Distinct(Toggle(tags, tag))
  {
    if tag in tags {
      WithoutDistinct(tags, tag);
    }
  }

  /** Selecting a tag and deselecting it again restores the list. */
  lemma ToggleTwice(tags: seq<string>, tag: string)
    requires tag !in tags
    ensures Toggle(Toggle(tags, tag), tag) == tags
  {
    WithoutSnoc(tags, tag, tag);
    WithoutAbsent(tags, tag);
  }

  /**
   * The log `handleSaveMood` builds: no tags when none are selected, and the note trimmed, or
   * none when it is only white space.
   */
  function NewMoodLog(id: string, date: int, moodValue: int, moodLabel: string, moodColor: string,
                      selectedTags: seq<string>, notes: string): (log: MoodLog)
    ensures log.id == id && log.date == date && log.moodValue == moodValue
    ensures log.moodLabel == moodLabel && log.moodColor == moodColor
    ensures log.tags.None? <==> selectedTags == []
    ensures log.tags.Some? ==> log.tags.value == selectedTags
    ensures log.notes.None? <==> AllSpace(notes)
    ensures log.notes.Some? ==> log.notes.value == Trim(notes) && !AllSpace(log.notes.value)
  {
    BlankIffAllSpace(notes);
    TrimIdempotent(notes);
    BlankIffAllSpace(Trim(notes));
    var trimmed := Trim(notes);
    MoodLog(id, date, moodValue, moodLabel, moodColor,
            if |selectedTags| > 0 then Some(selectedTags) else None,
            if trimmed != "" then Some(trimmed) else None)
  }

  const InitialMoodValue := 50

  class MoodLogger {
    var open: bool
    var step: Step
    var moodValue: int
    var moodLabel: string
    var moodColor: string
    var moodBgColor: string
    var selectedTags: seq<string>
    var notes: string

    /** The label and colours are those of the slider value. */
    ghost predicate Valid()
      reads this
    {
      && moodLabel == GetMoodLabel(moodValue)
      && moodColor == GetMoodColor(moodValue)
      && moodBgColor == GetMoodBackgroundColor(moodValue)
    }

    /** The hooks' initial values, which agree with the value 50. */
    constructor (open: bool)
      ensures Valid()
      ensures this.open == open && step == Intro && moodValue == InitialMoodValue
      ensures selectedTags == [] && notes == ""
    {
      this.open := open;
      step := Intro;
      moodValue := 50;
      moodLabel := "Neutral";
      moodColor := "#5dc7c2";
      moodBgColor := "#e6f7f6";
      selectedTags := [];
      notes := "";
    }

    /** `setMoodValue` from the slider, followed by the effect that recomputes the label and colours. */
    method SetMoodValue(v: int)
      modifies this
      ensures Valid() && moodValue == v
      ensures open == old(open) && step == old(step)
      ensures selectedTags == old(selectedTags) && notes == old(notes)
    {
      moodValue := v;
      moodLabel := GetMoodLabel(moodValue);
      moodColor := GetMoodColor(moodValue);
      moodBgColor := GetMoodBackgroundColor(moodValue);
    }

    /**
     * The effect on `open`: opening the dialog puts it back on the intro step. The effect runs
     * only when `open` changes, so only a closed dialog is opened.
     */
    method Open()
      requires Valid() && !open
      modifies this
      ensures Valid() && open && step == Intro
      ensures moodValue == old(moodValue) && selectedTags == old(selectedTags) && notes == old(notes)
    {
      open := true;
      step := Intro;
    }

    /**
     * `onOpenChange(false)`: the close button, a Cancel button or the dialog's own dismissal.
     * Only `open` changes; the step and the form are kept for the next opening.
     */
    method Close()
      requires Valid()
      modifies this
      ensures Valid() && !open && step == old(step)
      ensures moodValue == old(moodValue) && moodLabel == old(moodLabel) && moodColor == old(moodColor)
      ensures moodBgColor == old(moodBgColor) && selectedTags == old(selectedTags) && notes == old(notes)
    {
      open := false;
    }

    /** The note's text area. */
    method SetNotes(text: string)
      requires Valid()
      modifies this
      ensures Valid() && notes == text
      ensures open == old(open) && step == old(step)
      ensures moodValue == old(moodValue) && selectedTags == old(selectedTags)
    {
      notes := text;
    }

    /** `toggleTag`. */
    method ToggleTag(tag: string)
      requires Valid()
      modifies this
      ensures Valid() && selectedTags == Toggle(old(selectedTags), tag)
      ensures Distinct(old(selectedTags)) ==> Distinct(selectedTags)
      ensures open == old(open) && step == old(step)
      ensures moodValue == old(moodValue) && notes == old(notes)
    {
      if Distinct(selectedTags) {
        ToggleDistinct(selectedTags, tag);
      }
      if tag in selectedTags {
        selectedTags := Without(selectedTags, tag);
      } else {
        selectedTags := selectedTags + [tag];
      }
    }

    /**
     * `handleSaveMood`: the log handed to `onSaveMood`, taken from the current state; then the
     * dialog closes and the form is reset. `id` and `now` stand for `Date.now()`.
     */
    method HandleSaveMood(id: string, now: int) returns (log: MoodLog)
      requires Valid()
      modifies this
      ensures log == NewMoodLog(id, now, old(moodValue), old(moodLabel), old(moodColor), old(selectedTags), old(notes))
      ensures Consistent(log)
      ensures Valid() && !open && step == Intro
      ensures moodValue == InitialMoodValue && selectedTags == [] && notes == ""
    {
      log := NewMoodLog(id, now, moodValue, moodLabel, moodColor, selectedTags, notes);
      open := false;
      step := Intro;
      SetMoodValue(50);
      selectedTags := [];
      notes := "";
    }

    /** `handleNextStep`: the next step, or on the confirm step the save, whose log it returns. */
    method HandleNextStep(id: string, now: int) returns (saved: Option<MoodLog>)
      requires Valid()
      modifies this
      ensures Valid()
      ensures saved.None? <==> old(step) != Confirm
      ensures saved.None? ==> Some(step) == Advance(old(step)) && unchanged(this`open, this`moodValue, this`selectedTags, this`notes)
      ensures saved.Some? ==>
        && saved.value == NewMoodLog(id, now, old(moodValue), old(moodLabel), old(moodColor), old(selectedTags), old(notes))
        && !open && step == Intro && moodValue == InitialMoodValue && selectedTags == [] && notes == ""
    {
      if step == Intro {
        step := Select;
      } else if step == Select {
        step := Details;
      } else if step == Details {
        step := Confirm;
      } else {
        var log := HandleSaveMood(id, now);
        return Some(log);
      }
      saved := None;
    }

    /** `handlePrevStep`. */
    method HandlePrevStep()
      requires Valid()
      modifies this
      ensures Valid() && step == Back(old(step))
      ensures open == old(open) && moodValue == old(moodValue)
      ensures selectedTags == old(selectedTags) && notes == old(notes)
    {
      if step == Select {
        step := Intro;
      } else if step == Details {
        step := Select;
      } else if step == Confirm {
        step := Details;
      }
    }
  }
}
