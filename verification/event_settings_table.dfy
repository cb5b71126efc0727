/**
 * The settings rows of the new-tracker form: the category row, and for a
 * habit the schedule row, each showing the current choice as its subtitle.
 */
module EventSettingsTable {
  import opened Base
  import opened ChangeBatch

  /** The screen a row opens. */
  datatype Destination = CategoryScreen | ScheduleScreen

  /** `EventSettingsCellModel`; its `isSelected` is always `false`. */
  datatype EventSettingsRow = EventSettingsRow(title: string, subtitle: Option<string>, destination: Destination, isSelected: Option<bool>)

  const CategoryTitle: string := "Категория"
  const ScheduleTitle: string := "Расписание"

  /** `categoryCellConfig` with a subtitle. */
  function CategoryRow(subtitle: Option<string>): (r: EventSettingsRow)
    ensures r.title == CategoryTitle && r.subtitle == subtitle && r.destination == CategoryScreen && r.isSelected == Some(false)
  {
    EventSettingsRow(CategoryTitle, subtitle, CategoryScreen, Some(false))
  }

  /** `scheduleCellConfig` with a subtitle. */
  function ScheduleRow(subtitle: Option<string>): (r: EventSettingsRow)
    ensures r.title == ScheduleTitle && r.subtitle == subtitle && r.destination == ScheduleScreen && r.isSelected == Some(false)
  {
    EventSettingsRow(ScheduleTitle, subtitle, ScheduleScreen, Some(false))
  }

  /** The rows are the category row, then the schedule row exactly when the event is a habit. */
  predicate RowsForMode(rows: seq<EventSettingsRow>, isIrregular: bool)
  {
    |rows| == (if isIrregular then 1 else 2)
    && rows[0].destination == CategoryScreen
    && (!isIrregular ==> rows[1].destination == ScheduleScreen)
  }

  /** No row is ever marked, and each row carries its template's title. */
  predicate RowsWellFormed(rows: seq<EventSettingsRow>)
  {
    forall i :: 0 <= i < |rows| ==>
      rows[i].isSelected == Some(false)
      && rows[i].title == (if rows[i].destination == CategoryScreen then CategoryTitle else ScheduleTitle)
  }

  /** The rows `updateData` builds. */
  function RowsFor(isIrregular: bool, selectedCategory: Option<string>, selectedSchedule: Option<string>): (r: seq<EventSettingsRow>)
    ensures RowsForMode(r, isIrregular) && RowsWellFormed(r)
    ensures r[0].subtitle == selectedCategory
    ensures !isIrregular ==> r[1].subtitle == selectedSchedule
  {
    if isIrregular then [CategoryRow(selectedCategory)]
    else [CategoryRow(selectedCategory), ScheduleRow(selectedSchedule)]
  }

  class EventSettingsTableProvider {
    /** `cellConfigs`. */
    var cellConfigs: seq<EventSettingsRow>
    /** `isIrregular`. */
    var isIrregular: bool

    ghost predicate Valid()
      reads this
    {
      RowsWellFormed(cellConfigs) && 1 <= |cellConfigs| <= 2 && cellConfigs[0].destination == CategoryScreen
    }

    /** Initially a habit, with both rows and no subtitles. */
    constructor ()
      ensures Valid()
      ensures cellConfigs == [CategoryRow(None), ScheduleRow(None)] && !isIrregular
      ensures RowsForMode(cellConfigs, isIrregular)
    {
      cellConfigs := [CategoryRow(None), ScheduleRow(None)];
      isIrregular := false;
    }

    /** `numberOfSections`. */
    function NumberOfSections(): (n: nat)
      ensures n == 1
    {
      1
    }

    /** `numberOfRowsInSection`: one row per cell config, in every section. */
    function NumberOfRowsInSection(section: int): (n: nat)
      reads this
      requires Valid()
      ensures n == |cellConfigs| && 1 <= n <= 2
    {
      |cellConfigs|
    }

    /** `find(at:)`: `cellConfigs[item]`, which traps outside the rows; no row is marked. */
    function FindAt(p: IndexPath): (r: EventSettingsRow)
      reads this
      requires Valid()
      requires p.item < |cellConfigs|
      ensures r in cellConfigs && r.isSelected == Some(false)
      ensures p.item == 0 ==> r.destination == CategoryScreen && r.title == CategoryTitle
    {
      cellConfigs[p.item]
    }

    /** `setIsIrregular`: only the flag; the rows wait for `updateData`. */
    method SetIsIrregular(isIrregular: bool)
      requires Valid()
      modifies this
      ensures Valid()
      ensures this.isIrregular == isIrregular && cellConfigs == old(cellConfigs)
    {
      this.isIrregular := isIrregular;
    }

    /** `updateData`: the rows are rebuilt for the current mode with the given subtitles. */
    method UpdateData(selectedCategory: Option<string>, selectedSchedule: Option<string>)
      requires Valid()
      modifies this
      ensures Valid()
      ensures cellConfigs == RowsFor(isIrregular, selectedCategory, selectedSchedule)
      ensures RowsForMode(cellConfigs, isIrregular) && isIrregular == old(isIrregular)
    {
      var categoryConfig := CategoryRow(selectedCategory);
      var scheduleConfig := ScheduleRow(selectedSchedule);
      if isIrregular {
        cellConfigs := [categoryConfig];
      } else {
        cellConfigs := [categoryConfig, scheduleConfig];
      }
    }
  }
}
