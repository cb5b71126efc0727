/** A row of the app's settings-style tables: a title, an optional subtitle and an optional selection mark. */
module SettingsItems {
  import opened Base

  /** `SettingsTableItem`. */
  datatype SettingsItem = SettingsItem(title: string, subtitle: Option<string>, isSelected: Option<bool>)

  /** The cell models' `init(title:isSelected:)`: no subtitle. */
  function SelectableRow(title: string, isSelected: bool): (r: SettingsItem)
    ensures r.title == title && r.subtitle.None? && r.isSelected == Some(isSelected)
  {
    SettingsItem(title, None, Some(isSelected))
  }

  /** The rows of a list that carry a selection mark. */
  predicate Marked(rows: seq<SettingsItem>, i: nat)
    requires i < |rows|
  {
    rows[i].isSelected == Some(true)
  }
}
