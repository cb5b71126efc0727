/**
 * The weekday switches of the schedule screen, as a settings table: one row
 * per weekday, each showing the value stored for its day, if any.
 */
module ScheduleTable {
  import opened Base
  import opened ChangeBatch
  import opened SettingsItems

  /** Row `i`: the day's translated name and its stored switch value, nil for a day never set. */
  function ScheduleRow(selectedDays: map<Weekday, bool>, i: nat, translated: Weekday -> string): (r: SettingsItem)
    requires i < |AllWeekdays|
    ensures r.title == translated(AllWeekdays[i]) && r.subtitle.None?
    ensures r.isSelected.None? <==> AllWeekdays[i] !in selectedDays
    ensures r.isSelected.Some? ==> r.isSelected.value == selectedDays[AllWeekdays[i]]
  {
    var day := AllWeekdays[i];
    SettingsItem(translated(day), None, if day in selectedDays then Some(selectedDays[day]) else None)
  }

  class ScheduleTableProvider {
    /** `cellConfig`: the rows are switches. */
    const isSwitcher: bool
    /** `selectedDays`. */
    var selectedDays: map<Weekday, bool>

    constructor ()
      ensures isSwitcher && selectedDays == map[]
    {
      isSwitcher := true;
      selectedDays := map[];
    }

    /** `numberOfSections`. */
    function NumberOfSections(): (n: nat)
      ensures n == 1
    {
      1
    }

    /** `numberOfRowsInSection`: one row per weekday. */
    function NumberOfRowsInSection(section: int): (n: nat)
      ensures n == 7 && n == |AllWeekdays|
    {
      |AllWeekdays|
    }

    /** `find(at:)`: the row of day `allCases[item]`; another row traps. */
    function FindAt(p: IndexPath, translated: Weekday -> string): (r: SettingsItem)
      reads this
      requires p.item < |AllWeekdays|
      ensures r == ScheduleRow(selectedDays, p.item, translated)
      ensures r.isSelected == Some(true) <==> AllWeekdays[p.item] in selectedDays && selectedDays[AllWeekdays[p.item]]
    {
      ScheduleRow(selectedDays, p.item, translated)
    }

    /** `setSelectedDays`: the dictionary is rebuilt, one `true` entry per listed day and nothing else. */
    method SetSelectedDays(days: seq<Weekday>)
      modifies this
      ensures forall d :: d in selectedDays <==> d in days
      ensures forall d :: d in selectedDays ==> selectedDays[d]
    {
      var result: map<Weekday, bool> := map[];
      for i := 0 to |days|
        invariant forall d :: d in result <==> d in days[..i]
        invariant forall d :: d in result ==> result[d]
      {
        result := result[days[i] := true];
      }
      assert days[..|days|] == days;
      selectedDays := result;
    }

    /** `updateValue`: only that day's value changes. */
    method UpdateValue(day: Weekday, value: bool)
      modifies this
      ensures selectedDays == old(selectedDays)[day := value]
      ensures day in selectedDays && selectedDays[day] == value
      ensures forall d :: d != day ==> (d in selectedDays <==> d in old(selectedDays))
      ensures forall d :: d != day && d in selectedDays ==> selectedDays[d] == old(selectedDays)[d]
    {
      selectedDays := selectedDays[day := value];
    }
  }
}
