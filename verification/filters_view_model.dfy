/**
 * The filter menu: one row per filter type, the stored type marked as
 * selected; choosing a row stores its type and tells the list to update.
 */
module FiltersViewModel {
  import opened Base
  import opened FiltersModel
  import opened ChangeBatch
  import opened SettingsItems
  import FStore = FiltersStore

  /** Row `i` of the menu when `selected` is the stored type. */
  function FilterRow(i: nat, selected: Option<FilterType>): (r: SettingsItem)
    requires i < |AllFilterTypes|
    ensures r.title == Translated(AllFilterTypes[i]) && r.subtitle.None?
    ensures r.isSelected == Some(selected == Some(AllFilterTypes[i]))
  {
    SelectableRow(Translated(AllFilterTypes[i]), selected == Some(AllFilterTypes[i]))
  }

  /** At most one row is marked, and with a stored type exactly its own row is. */
  lemma OneRowMarked(selected: Option<FilterType>, i: nat, j: nat)
    requires i < |AllFilterTypes| && j < |AllFilterTypes| && i != j
    ensures !(FilterRow(i, selected).isSelected == Some(true) && FilterRow(j, selected).isSelected == Some(true))
    ensures selected.Some? ==> exists k :: 0 <= k < |AllFilterTypes| && FilterRow(k, selected).isSelected == Some(true)
  {
    AllFilterTypesListsEachOnce();
    if selected.Some? {
      assert selected.value in AllFilterTypes;
      var k :| 0 <= k < |AllFilterTypes| && AllFilterTypes[k] == selected.value;
      assert FilterRow(k, selected).isSelected == Some(true);
    }
  }

  /** After choosing row `i`, row `j` is marked exactly when it is row `i`. */
  lemma ChosenRowIsMarked(i: nat, j: nat)
    requires i < |AllFilterTypes| && j < |AllFilterTypes|
    ensures FilterRow(j, Some(AllFilterTypes[i])).isSelected == Some(i == j)
  {
    AllFilterTypesListsEachOnce();
  }

  class FiltersViewModel {
    const filtersModel: FStore.FiltersStore
    /** How many times `didUpdate` has been called. */
    var didUpdateCount: nat

    constructor (model: FStore.FiltersStore)
      ensures filtersModel == model && didUpdateCount == 0
    {
      filtersModel := model;
      didUpdateCount := 0;
    }

    /** `selected`: the type the filters store holds. */
    function Selected(): (r: Option<FilterType>)
      reads filtersModel
      ensures r == FStore.TypeIn(filtersModel.defaults)
    {
      filtersModel.Type()
    }

    /** `select`: the type is stored and `didUpdate` is called once. */
    method Select(filterType: FilterType)
      modifies this, filtersModel
      ensures filtersModel.defaults == FStore.AfterSetType(old(filtersModel.defaults), filterType)
      ensures Selected() == Some(filterType) && filtersModel.Date() == old(filtersModel.Date())
      ensures didUpdateCount == old(didUpdateCount) + 1
    {
      filtersModel.SetType(filterType);
      didUpdateCount := didUpdateCount + 1;
    }

    /** `select(at:)`: the type of the row; another row traps. */
    method SelectAt(p: IndexPath)
      requires p.item < |AllFilterTypes|
      modifies this, filtersModel
      ensures filtersModel.defaults == FStore.AfterSetType(old(filtersModel.defaults), AllFilterTypes[p.item])
      ensures Selected() == Some(AllFilterTypes[p.item]) && filtersModel.Date() == old(filtersModel.Date())
      ensures didUpdateCount == old(didUpdateCount) + 1
    {
      var filterType := AllFilterTypes[p.item];
      Select(filterType);
    }

    /** `numberOfSections`. */
    function NumberOfSections(): (n: nat)
      ensures n == 1
    {
      1
    }

    /** `numberOfRowsInSection`: one row per filter type, in every section. */
    function NumberOfRowsInSection(section: int): (n: nat)
      ensures n == 4 && n == |AllFilterTypes|
    {
      |AllFilterTypes|
    }

    /** `find(at:)`: the row's title and whether its type is the stored one; another row traps. */
    function FindAt(p: IndexPath): (r: SettingsItem)
      reads filtersModel
      requires p.item < |AllFilterTypes|
      ensures r.title == Translated(AllFilterTypes[p.item]) && r.subtitle.None?
      ensures r.isSelected == Some(Selected() == Some(AllFilterTypes[p.item]))
    {
      FilterRow(p.item, Selected())
    }
  }
}
