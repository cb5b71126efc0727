/**
 * The category picker's view model: one section listing the stored
 * categories, and the title the user has selected. Adding, renaming and
 * deleting go to the category store; the selection follows them.
 */
module CategoryViewModel {
  import opened Base
  import opened Entities
  import opened ChangeBatch
  import Store = TrackerCategoryStore

  /** `Category`: a category value carrying only its title. */
  datatype Category = Category(title: string)

  /** The selection names a stored category, or nothing is selected. */
  ghost predicate SelectionStored(cs: seq<CategoryEntity>, selected: Option<string>)
  {
    selected.None? || exists c :: c in cs && c.title == selected
  }

  /** The selection after the category titled `deleted` is deleted: cleared when it was that title. */
  function SelectionAfterDelete(selected: Option<string>, deleted: string): (r: Option<string>)
    ensures r.Some? ==> r == selected && r != Some(deleted)
    ensures selected != Some(deleted) ==> r == selected
  {
    if selected == Some(deleted) then None else selected
  }

  /**
   * Deleting the category at an index keeps the selection pointing at a
   * stored category: either it was that category's title, and it is
   * cleared, or it names another category, which stays.
   */
  lemma DeleteKeepsSelectionStored(cs: seq<CategoryEntity>, index: nat, selected: Option<string>)
    requires Store.UniqueOids(cs) && index < |cs| && cs[index].title.Some?
    requires SelectionStored(cs, selected)
    ensures SelectionStored(Store.WithoutOid(cs, cs[index].oid), SelectionAfterDelete(selected, cs[index].title.value))
  {
    var after := SelectionAfterDelete(selected, cs[index].title.value);
    if after.Some? {
      var c :| c in cs && c.title == selected;
      var k :| 0 <= k < |cs| && cs[k] == c;
      assert k != index;
      assert c.oid != cs[index].oid;
      assert c in Store.WithoutOid(cs, cs[index].oid);
    }
  }

  /** After `addOrUpdate(name, …)` the name is a stored title, whether or not the store took it. */
  lemma AddOrUpdateKeepsSelectionStored(cs: seq<CategoryEntity>, name: string, index: Option<nat>, oid: nat)
    requires Store.FindByTitle(cs, name).None? && index.Some? ==> index.value < |cs|
    ensures SelectionStored(Store.AddOrUpdated(cs, name, index, oid), Some(name))
    ensures SelectionStored(cs + [CategoryEntity(oid, Some(name))], Some(name))
  {
    Store.AddOrUpdateStoresTitle(cs, name, index, oid);
    var added := cs + [CategoryEntity(oid, Some(name))];
    assert added[|cs|] in added;
  }

  class CategoryViewModel {
    const model: Store.TrackerCategoryStore
    /** `selected`. */
    var selected: Option<string>
    /** How many times `didUpdate` has been called. */
    var didUpdateCount: nat
    /** The values passed to `didNumberOfRowsUpdate`, oldest first. */
    var rowCountReports: seq<nat>
    /** The arguments passed to `navigateToEdition`, oldest first. */
    var editions: seq<(IndexPath, string)>

    ghost predicate Valid()
      reads this, model
    {
      model.Valid()
    }

    constructor (model: Store.TrackerCategoryStore)
      requires model.Valid()
      ensures Valid()
      ensures this.model == model && selected.None? && didUpdateCount == 0
      ensures rowCountReports == [] && editions == []
    {
      this.model := model;
      selected := None;
      didUpdateCount := 0;
      rowCountReports := [];
      editions := [];
    }

    /** `numberOfSections`. */
    function NumberOfSections(): (n: nat)
      ensures n == 1
    {
      1
    }

    /** `numberOfRowsInSection`: the store's count, which is also reported. */
    method NumberOfRowsInSection(section: int) returns (n: nat)
      modifies this
      ensures n == model.Count() && (!model.readable ==> n == 0)
      ensures rowCountReports == old(rowCountReports) + [n]
      ensures selected == old(selected) && didUpdateCount == old(didUpdateCount) && editions == old(editions)
    {
      n := model.Count();
      rowCountReports := rowCountReports + [n];
    }

    /** `find(at:)`: the category at the row, nil when it has no title; another row traps. */
    function FindAt(p: IndexPath): (r: Option<Category>)
      reads this, model
      requires p.item < model.Count()
      ensures r.None? <==> model.categories[p.item].title.None?
      ensures r.Some? ==> Some(r.value.title) == model.categories[p.item].title && model.readable
    {
      var c := model.FindAt(p.item);
      if c.title.None? then None else Some(Category(c.title.value))
    }

    /** `selectCategory`. */
    method SelectCategory(title: Option<string>)
      modifies this
      ensures selected == title
      ensures didUpdateCount == old(didUpdateCount) && rowCountReports == old(rowCountReports) && editions == old(editions)
    {
      selected := title;
    }

    /** `selectCategory(at:)`: the found category becomes the selection, and is returned. */
    method SelectCategoryAt(p: IndexPath) returns (r: Option<Category>)
      requires Valid()
      requires p.item < model.Count()
      modifies this
      ensures Valid()
      ensures r == FindAt(p)
      ensures r.None? ==> selected.None?
      ensures r.Some? ==> selected == Some(r.value.title) && SelectionStored(model.categories, selected)
      ensures didUpdateCount == old(didUpdateCount) && rowCountReports == old(rowCountReports) && editions == old(editions)
    {
      r := FindAt(p);
      if r.Some? {
        assert model.categories[p.item] in model.categories;
      }
      SelectCategory(if r.Some? then Some(r.value.title) else None);
    }

    /**
     * `addOrUpdate`: the name is selected before the store is asked, so it
     * is selected even when the store ignores a duplicate; `didUpdate` follows.
     */
    method AddOrUpdate(name: string, p: Option<IndexPath>)
      requires Valid()
      requires model.FindBy(name).None? && p.Some? ==> p.value.item < model.Count()
      modifies this, model
      ensures Valid()
      ensures selected == Some(name) && SelectionStored(model.categories, selected)
      ensures model.readable ==> model.categories == Store.AddOrUpdated(old(model.categories), name, if p.Some? then Some(p.value.item) else None, old(model.nextOid))
      ensures !model.readable ==> model.categories == old(model.categories) + [CategoryEntity(old(model.nextOid), Some(name))]
      ensures model.readable == old(model.readable)
      ensures didUpdateCount == old(didUpdateCount) + 1 && rowCountReports == old(rowCountReports) && editions == old(editions)
    {
      var index := if p.Some? then Some(p.value.item) else None;
      AddOrUpdateKeepsSelectionStored(model.categories, name, index, model.nextOid);
      SelectCategory(Some(name));
      model.AddOrUpdate(name, index);
      didUpdateCount := didUpdateCount + 1;
    }

    /**
     * `delete(at:)`: nothing happens when the row's category has no title;
     * otherwise the selection is cleared if it is that title, the category
     * is deleted and `didUpdate` follows.
     */
    method Delete(p: IndexPath)
      requires Valid()
      requires p.item < model.Count()
      modifies this, model
      ensures Valid()
      ensures old(model.categories[p.item].title).None? ==>
        model.categories == old(model.categories) && selected == old(selected) && didUpdateCount == old(didUpdateCount)
      ensures old(model.categories[p.item].title).Some? ==>
        model.categories == Store.WithoutOid(old(model.categories), old(model.categories[p.item].oid))
        && |model.categories| == |old(model.categories)| - 1
        && selected == SelectionAfterDelete(old(selected), old(model.categories[p.item].title.value))
        && didUpdateCount == old(didUpdateCount) + 1
      ensures SelectionStored(old(model.categories), old(selected)) ==> SelectionStored(model.categories, selected)
      ensures model.readable == old(model.readable) && rowCountReports == old(rowCountReports) && editions == old(editions)
    {
      var category := FindAt(p);
      if category.None? {
        return;
      }
      if SelectionStored(model.categories, selected) {
        DeleteKeepsSelectionStored(model.categories, p.item, selected);
      }
      if Some(category.value.title) == selected {
        SelectCategory(None);
      }
      model.DeleteAt(p.item);
      didUpdateCount := didUpdateCount + 1;
    }

    /** `edit(at:)`: the row and its title go to `navigateToEdition`; no state changes. */
    method Edit(p: IndexPath)
      requires p.item < model.Count()
      modifies this
      ensures FindAt(p).None? ==> editions == old(editions)
      ensures FindAt(p).Some? ==> editions == old(editions) + [(p, FindAt(p).value.title)]
      ensures selected == old(selected) && didUpdateCount == old(didUpdateCount) && rowCountReports == old(rowCountReports)
    {
      var category := FindAt(p);
      if category.None? {
        return;
      }
      editions := editions + [(p, category.value.title)];
    }
  }
}
