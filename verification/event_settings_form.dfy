/**
 * The new-tracker form: the name, emoji, color, category and (for a habit)
 * weekdays the user fills in, the rule that enables the create button, the
 * schedule row's subtitle, and the tracker description handed back on
 * create.
 */
module EventSettingsForm {
  import opened Base
  import opened Entities
  import Table = EventSettingsTable

  /** `TrackerInfo`: the tracker being created or edited, its weekdays and its category title. */
  datatype TrackerInfo = TrackerInfo(id: Option<Uuid>, tracker: TrackerValue, selectedDays: seq<Weekday>, category: string)

  /** The schedule subtitle of a habit done every day. */
  const EveryDay: string := "Каждый день"

  /** The parts with `separator` between each two neighbours. */
  function Joined(parts: seq<string>, separator: string): (r: string)
    ensures parts == [] ==> r == []
    ensures |parts| == 1 ==> r == parts[0]
    ensures parts != [] ==> |r| == TotalLength(parts) + (|parts| - 1) * |separator|
    ensures parts != [] ==> r[..|parts[0]|] == parts[0]
  {
    if parts == [] then []
    else if |parts| == 1 then parts[0]
    else parts[0] + separator + Joined(parts[1..], separator)
  }

  function TotalLength(parts: seq<string>): nat
  {
    if parts == [] then 0 else |parts[0]| + TotalLength(parts[1..])
  }

  /** The short names of the days, in the order chosen. */
  function ShortNames(days: seq<Weekday>, shortTranslated: Weekday -> string): (r: seq<string>)
    ensures |r| == |days| && forall i :: 0 <= i < |days| ==> r[i] == shortTranslated(days[i])
  {
    seq(|days|, i requires 0 <= i < |days| => shortTranslated(days[i]))
  }

  /**
   * The schedule subtitle `updateData` passes on: "Каждый день" when as many
   * days are chosen as there are weekdays, otherwise their short names
   * joined by ", ".
   */
  function ScheduleSubtitle(days: seq<Weekday>, shortTranslated: Weekday -> string): (r: string)
    ensures |days| == |AllWeekdays| ==> r == EveryDay
    ensures |days| != |AllWeekdays| ==> r == Joined(ShortNames(days, shortTranslated), ", ")
    ensures days == [] ==> r == ""
  {
    if |days| == |AllWeekdays| then EveryDay else Joined(ShortNames(days, shortTranslated), ", ")
  }

  /** Every weekday chosen once, in any order, reads "Каждый день". */
  lemma EveryWeekdayReadsEveryDay(days: seq<Weekday>, shortTranslated: Weekday -> string)
    requires forall i, j :: 0 <= i < j < |days| ==> days[i] != days[j]
    requires forall d: Weekday :: d in days
    ensures ScheduleSubtitle(days, shortTranslated) == EveryDay
  {
    DistinctDaysCount(days);
  }

  /** A list naming every day, none twice, has seven entries. */
  lemma DistinctDaysCount(days: seq<Weekday>)
    requires forall i, j :: 0 <= i < j < |days| ==> days[i] != days[j]
    requires forall d: Weekday :: d in days
    ensures |days| == |AllWeekdays|
  {
    AllWeekdaysListsEachDayOnce();
    DistinctSize(AllWeekdays);
    assert (set d | d in days) == (set d | d in AllWeekdays);
    DistinctSize(days);
  }

  lemma {:induction false} DistinctSize(days: seq<Weekday>)
    requires forall i, j :: 0 <= i < j < |days| ==> days[i] != days[j]
    ensures |set d | d in days| == |days|
    decreases |days|
  {
    if days != [] {
      DistinctSize(days[1..]);
      assert (set d | d in days) == {days[0]} + (set d | d in days[1..]);
      assert days[0] !in days[1..] by {
        forall k | 0 <= k < |days[1..]| ensures days[1..][k] != days[0] {
          assert days[1..][k] == days[k + 1];
        }
      }
    }
  }

  /**
   * `hasEmpty`: the name is empty or no category, emoji or color is chosen;
   * for a habit, also when no weekday is chosen.
   */
  function HasEmpty(name: string, category: Option<string>, emoji: Option<string>, color: Option<Color>, days: seq<Weekday>, isIrregular: bool): (r: bool)
    ensures name == [] || category.None? || emoji.None? || color.None? ==> r
    ensures !isIrregular && days == [] ==> r
    ensures r && name != [] && category.Some? && emoji.Some? && color.Some? ==> !isIrregular && days == []
  {
    var requiredFieldsEmpty := |name| == 0 || category.None? || emoji.None? || color.None?;
    if isIrregular then requiredFieldsEmpty else requiredFieldsEmpty || days == []
  }

  /** For an irregular event the weekdays do not matter. */
  lemma IrregularIgnoresDays(name: string, category: Option<string>, emoji: Option<string>, color: Option<Color>, days: seq<Weekday>, other: seq<Weekday>)
    ensures HasEmpty(name, category, emoji, color, days, true) == HasEmpty(name, category, emoji, color, other, true)
  {
  }

  /**
   * The tracker description `didCreateTapped` builds from a complete form:
   * the edited tracker's id and pinned flag are kept; a new tracker has no
   * id and is not pinned.
   */
  function Created(initial: Option<TrackerInfo>, name: string, color: Color, emoji: string, days: seq<Weekday>, category: string): (r: TrackerInfo)
    ensures r.tracker.title == name && r.tracker.color == color && r.tracker.emoji == emoji
    ensures r.selectedDays == days && r.category == category
    ensures initial.None? ==> r.id.None? && r.tracker.pinned == Some(false)
    ensures initial.Some? ==> r.id == initial.value.id
    ensures initial.Some? && initial.value.tracker.pinned.Some? ==> r.tracker.pinned == initial.value.tracker.pinned
    ensures initial.Some? && initial.value.tracker.pinned.None? ==> r.tracker.pinned == Some(false)
  {
    var pinned := if initial.Some? && initial.value.tracker.pinned.Some? then initial.value.tracker.pinned.value else false;
    TrackerInfo(if initial.Some? then initial.value.id else None, TrackerValue(name, color, emoji, Some(pinned)), days, category)
  }

  class EventSettingsViewController {
    const tableProvider: Table.EventSettingsTableProvider
    /** `initialTrackerInfo`: the tracker being edited, if any. */
    var initialTrackerInfo: Option<TrackerInfo>
    /** The name field's text. */
    var trackerName: string
    var selectedDays: seq<Weekday>
    var selectedCategory: Option<string>
    /** The emoji and color collections' selections. */
    var selectedEmoji: Option<string>
    var selectedColor: Option<Color>
    /** `createButton.isDisabled`. */
    var createDisabled: bool
    /** The tracker descriptions handed to `didComplete`, oldest first. */
    var completions: seq<TrackerInfo>

    ghost predicate Valid()
      reads this, tableProvider
    {
      tableProvider.Valid()
    }

    function HasEmptyNow(): bool
      reads this, tableProvider
    {
      HasEmpty(trackerName, selectedCategory, selectedEmoji, selectedColor, selectedDays, tableProvider.isIrregular)
    }

    /** The button is enabled exactly when the form is complete, and the rows show the current choices. */
    ghost predicate Shown(shortTranslated: Weekday -> string)
      reads this, tableProvider
    {
      createDisabled == HasEmptyNow()
      && tableProvider.cellConfigs == Table.RowsFor(tableProvider.isIrregular, selectedCategory, Some(ScheduleSubtitle(selectedDays, shortTranslated)))
    }

    constructor ()
      ensures Valid() && fresh(tableProvider)
      ensures initialTrackerInfo.None? && trackerName == [] && selectedDays == [] && selectedCategory.None?
      ensures selectedEmoji.None? && selectedColor.None? && completions == [] && !tableProvider.isIrregular
    {
      tableProvider := new Table.EventSettingsTableProvider();
      initialTrackerInfo := None;
      trackerName := [];
      selectedDays := [];
      selectedCategory := None;
      selectedEmoji := None;
      selectedColor := None;
      createDisabled := false;
      completions := [];
    }

    /** `updateData`: the table's rows get the category and the schedule subtitle. */
    method UpdateData(shortTranslated: Weekday -> string)
      requires Valid()
      modifies tableProvider
      ensures Valid()
      ensures tableProvider.cellConfigs == Table.RowsFor(tableProvider.isIrregular, selectedCategory, Some(ScheduleSubtitle(selectedDays, shortTranslated)))
      ensures tableProvider.isIrregular == old(tableProvider.isIrregular)
    {
      var scheduleSubtitle := ScheduleSubtitle(selectedDays, shortTranslated);
      tableProvider.UpdateData(selectedCategory, Some(scheduleSubtitle));
    }

    /** `updateCreateButtonState`. */
    method UpdateCreateButtonState()
      modifies this
      ensures createDisabled == HasEmptyNow()
      ensures initialTrackerInfo == old(initialTrackerInfo) && trackerName == old(trackerName)
      ensures selectedDays == old(selectedDays) && selectedCategory == old(selectedCategory)
      ensures selectedEmoji == old(selectedEmoji) && selectedColor == old(selectedColor) && completions == old(completions)
    {
      createDisabled := HasEmptyNow();
    }

    /** `updateTable`: rows rebuilt, then the button state. */
    method UpdateTable(shortTranslated: Weekday -> string)
      requires Valid()
      modifies this, tableProvider
      ensures Valid() && Shown(shortTranslated)
      ensures initialTrackerInfo == old(initialTrackerInfo) && trackerName == old(trackerName)
      ensures selectedDays == old(selectedDays) && selectedCategory == old(selectedCategory)
      ensures selectedEmoji == old(selectedEmoji) && selectedColor == old(selectedColor) && completions == old(completions)
      ensures tableProvider.isIrregular == old(tableProvider.isIrregular)
    {
      UpdateData(shortTranslated);
      UpdateCreateButtonState();
    }

    /**
     * `initialize`: the mode, then the form filled from the tracker being
     * edited (or emptied for a new one), then the rows. The button state is
     * set when the view loads.
     */
    method Initialize(isIrregular: bool, trackerInfo: Option<TrackerInfo>, shortTranslated: Weekday -> string)
      requires Valid()
      modifies this, tableProvider
      ensures Valid()
      ensures tableProvider.isIrregular == isIrregular && initialTrackerInfo == trackerInfo
      ensures trackerInfo.None? ==> trackerName == [] && selectedDays == [] && selectedCategory.None? && selectedEmoji.None? && selectedColor.None?
      ensures trackerInfo.Some? ==> trackerName == trackerInfo.value.tracker.title && selectedDays == trackerInfo.value.selectedDays
      ensures trackerInfo.Some? ==> selectedCategory == Some(trackerInfo.value.category)
      ensures trackerInfo.Some? ==> selectedEmoji == Some(trackerInfo.value.tracker.emoji) && selectedColor == Some(trackerInfo.value.tracker.color)
      ensures tableProvider.cellConfigs == Table.RowsFor(isIrregular, selectedCategory, Some(ScheduleSubtitle(selectedDays, shortTranslated)))
      ensures completions == old(completions) && createDisabled == old(createDisabled)
    {
      tableProvider.SetIsIrregular(isIrregular);
      initialTrackerInfo := trackerInfo;
      if trackerInfo.None? {
        selectedDays := [];
        selectedCategory := None;
        trackerName := [];
        selectedEmoji := None;
        selectedColor := None;
      } else {
        selectedDays := trackerInfo.value.selectedDays;
        selectedCategory := Some(trackerInfo.value.category);
        trackerName := trackerInfo.value.tracker.title;
        selectedEmoji := Some(trackerInfo.value.tracker.emoji);
        selectedColor := Some(trackerInfo.value.tracker.color);
      }
      UpdateData(shortTranslated);
    }

    /** The schedule screen's `didComplete`: the weekdays are replaced and the table updated. */
    method DidCompleteSchedule(schedule: seq<Weekday>, shortTranslated: Weekday -> string)
      requires Valid()
      modifies this, tableProvider
      ensures Valid() && Shown(shortTranslated)
      ensures selectedDays == schedule && selectedCategory == old(selectedCategory) && trackerName == old(trackerName)
      ensures completions == old(completions)
    {
      selectedDays := schedule;
      UpdateTable(shortTranslated);
    }

    /** The category screen's `didComplete`: the category is replaced and the table updated. */
    method DidCompleteCategory(category: Option<string>, shortTranslated: Weekday -> string)
      requires Valid()
      modifies this, tableProvider
      ensures Valid() && Shown(shortTranslated)
      ensures selectedCategory == category && selectedDays == old(selectedDays) && trackerName == old(trackerName)
      ensures completions == old(completions)
    {
      selectedCategory := category;
      UpdateTable(shortTranslated);
    }

    /** A new emoji is chosen (the collection keeps it); the button state follows. */
    method DidSelectEmoji(emoji: Option<string>)
      modifies this
      ensures selectedEmoji == emoji && createDisabled == HasEmptyNow()
      ensures selectedColor == old(selectedColor) && selectedCategory == old(selectedCategory) && selectedDays == old(selectedDays)
      ensures trackerName == old(trackerName) && completions == old(completions)
    {
      selectedEmoji := emoji;
      UpdateCreateButtonState();
    }

    /** A new color is chosen (the collection keeps it); the button state follows. */
    method DidSelectColor(color: Option<Color>)
      modifies this
      ensures selectedColor == color && createDisabled == HasEmptyNow()
      ensures selectedEmoji == old(selectedEmoji) && selectedCategory == old(selectedCategory) && selectedDays == old(selectedDays)
      ensures trackerName == old(trackerName) && completions == old(completions)
    {
      selectedColor := color;
      UpdateCreateButtonState();
    }

    /** The name field reports a change of its error state; the button state follows. */
    method OnError(hasError: bool)
      modifies this
      ensures createDisabled == HasEmptyNow()
      ensures trackerName == old(trackerName) && completions == old(completions)
    {
      UpdateCreateButtonState();
    }

    /**
     * `didCreateTapped`: nothing without a category, color and emoji;
     * otherwise the tracker description goes to `didComplete`. The weekdays
     * and the name's emptiness are not checked again.
     */
    method DidCreateTapped()
      modifies this
      ensures selectedCategory.None? || selectedColor.None? || selectedEmoji.None? ==> completions == old(completions)
      ensures selectedCategory.Some? && selectedColor.Some? && selectedEmoji.Some? ==>
        completions == old(completions) + [Created(initialTrackerInfo, trackerName, selectedColor.value, selectedEmoji.value, selectedDays, selectedCategory.value)]
      ensures initialTrackerInfo == old(initialTrackerInfo) && trackerName == old(trackerName) && selectedDays == old(selectedDays)
      ensures selectedCategory == old(selectedCategory) && selectedEmoji == old(selectedEmoji) && selectedColor == old(selectedColor)
      ensures createDisabled == old(createDisabled)
    {
      if selectedCategory.None? || selectedColor.None? || selectedEmoji.None? {
        return;
      }
      var trackerInfo := Created(initialTrackerInfo, trackerName, selectedColor.value, selectedEmoji.value, selectedDays, selectedCategory.value);
      completions := completions + [trackerInfo];
    }
  }

  /**
   * Opening a tracker for editing and creating at once hands back the same
   * description; a tracker without a pinned flag comes back unpinned.
   */
  lemma EditUnchangedRoundTrip(info: TrackerInfo)
    ensures info.tracker.pinned.Some? ==>
      Created(Some(info), info.tracker.title, info.tracker.color, info.tracker.emoji, info.selectedDays, info.category) == info
    ensures info.tracker.pinned.None? ==>
      Created(Some(info), info.tracker.title, info.tracker.color, info.tracker.emoji, info.selectedDays, info.category) == info.(tracker := info.tracker.(pinned := Some(false)))
  {
  }
}
