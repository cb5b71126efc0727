/**
 * The category list of the new-tracker form, as a settings table: the rows
 * the categories provider fetches, the selected title marked.
 */
module CategoryTable {
  import opened Base
  import opened Entities
  import opened ChangeBatch
  import opened SettingsItems
  import Store = TrackerCategoryStore
  import Provider = CategoryProvider

  /**
   * `CategoryCellModel(title:isSelected:)` for a category titled `title`:
   * no row for a category without a title; the row is marked exactly when
   * its title is the selected one, and never has a subtitle.
   */
  function CategoryRow(title: Option<string>, selected: Option<string>): (r: Option<SettingsItem>)
    ensures r.None? <==> title.None?
    ensures r.Some? ==> r.value.title == title.value && r.value.subtitle.None?
    ensures r.Some? ==> (r.value.isSelected == Some(true) <==> selected == title)
    ensures r.Some? ==> r.value.isSelected.Some?
  {
    if title.None? then None else Some(SelectableRow(title.value, selected == title))
  }

  /** With distinct stored titles, every marked row shows the same stored category. */
  lemma OneCategoryMarked(cs: seq<CategoryEntity>, selected: Option<string>, x: CategoryEntity, y: CategoryEntity)
    requires Store.DistinctTitles(cs) && x in cs && y in cs
    requires CategoryRow(x.title, selected).Some? && CategoryRow(x.title, selected).value.isSelected == Some(true)
    requires CategoryRow(y.title, selected).Some? && CategoryRow(y.title, selected).value.isSelected == Some(true)
    ensures x == y
  {
    var a :| 0 <= a < |cs| && cs[a] == x;
    var b :| 0 <= b < |cs| && cs[b] == y;
    assert cs[a].title == cs[b].title && cs[a].title.Some?;
    assert a == b;
  }

  class CategoryTableProvider {
    /** `categoryProvider`, which may be absent. */
    const categoryProvider: Provider.CategoryProvider?
    /** `selected`. */
    var selected: Option<string>

    constructor (categoryProvider: Provider.CategoryProvider?)
      ensures this.categoryProvider == categoryProvider && selected.None?
    {
      this.categoryProvider := categoryProvider;
      selected := None;
    }

    /** `numberOfSections`: the provider's, or 0 without one. */
    function NumberOfSections(): (n: nat)
      reads categoryProvider, if categoryProvider != null then {categoryProvider.store} else {}
      ensures categoryProvider == null ==> n == 0
      ensures categoryProvider != null ==> n == categoryProvider.NumberOfSections() && n <= 1
    {
      if categoryProvider == null then 0 else categoryProvider.NumberOfSections()
    }

    /** `numberOfRowsInSection`: the provider's, or 0 without one. */
    function NumberOfRowsInSection(section: int): (n: nat)
      reads categoryProvider, if categoryProvider != null then {categoryProvider.store} else {}
      requires categoryProvider != null && categoryProvider.store.readable ==> section == 0
      ensures categoryProvider == null ==> n == 0
      ensures categoryProvider != null ==> n == categoryProvider.store.Count()
    {
      if categoryProvider == null then 0 else categoryProvider.NumberOfRowsInSection(section)
    }

    /**
     * `find(at:)`: nil without a provider or for a category without a title;
     * otherwise the row of the fetched category at the path.
     */
    function FindAt(p: IndexPath): (r: Option<SettingsItem>)
      reads this, categoryProvider, if categoryProvider != null then {categoryProvider.store} else {}
      requires categoryProvider != null ==> p.section == 0 && p.item < |categoryProvider.Fetched()|
      ensures categoryProvider == null ==> r.None?
      ensures categoryProvider != null ==> r == CategoryRow(categoryProvider.Fetched()[p.item].title, selected)
      ensures r.Some? ==> exists c :: c in categoryProvider.store.categories && c.title == Some(r.value.title)
    {
      if categoryProvider == null then None
      else
        var c := categoryProvider.FindAt(p);
        CategoryRow(c.title, selected)
    }

    /** `setSelectedCategory`. */
    method SetSelectedCategory(selected: Option<string>)
      modifies this
      ensures this.selected == selected
    {
      this.selected := selected;
    }
  }
}
