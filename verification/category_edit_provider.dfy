/**
 * The categories provider of the category screen: the same fetched-results
 * controller as the form's provider, with closures instead of a delegate,
 * a row count that is also reported, and one `addOrUpdateRecord` that either
 * adds a category or renames the one at a path of the fetched (sorted) list.
 */
module CategoryEditProvider {
  import opened Base
  import opened Entities
  import opened Ordering
  import opened FetchedResults
  import opened ChangeBatch
  import Store = TrackerCategoryStore

  /** Adding a category under a title no category has keeps the titles distinct. */
  lemma AddedKeepsTitlesDistinct(cs: seq<CategoryEntity>, title: string, oid: nat)
    requires Store.UniqueOids(cs)
    ensures Store.DistinctTitles(cs) && Store.FindByTitle(cs, title).None? ==>
      Store.DistinctTitles(cs + [CategoryEntity(oid, Some(title))])
  {
    if Store.DistinctTitles(cs) && Store.FindByTitle(cs, title).None? {
      Store.AddOrUpdatePreservesDistinctTitles(cs, title, None, oid);
    }
  }

  /** Renaming a category to a title no category has keeps the titles distinct. */
  lemma RenameKeepsTitlesDistinct(cs: seq<CategoryEntity>, oid: nat, title: string)
    requires Store.UniqueOids(cs)
    ensures Store.DistinctTitles(cs) && Store.FindByTitle(cs, title).None? ==>
      Store.DistinctTitles(Store.Retitled(cs, oid, title))
  {
    if Store.DistinctTitles(cs) && Store.FindByTitle(cs, title).None? {
      Store.RetitledKeepsTitlesDistinct(cs, oid, title);
    }
  }

  class CategoryProvider {
    const store: Store.TrackerCategoryStore
    /** `insertedIndexes`, `deletedIndexes`, `updatedIndexes`. */
    var sets: ItemSets
    /** The values `didUpdate` has been called with, oldest first. */
    var updates: seq<ItemChanges>
    /** The values `didNumberOfRowsUpdate` has been called with, oldest first. */
    var rowCountReports: seq<int>

    ghost predicate Valid()
      reads this, store
    {
      store.Valid() && Uniform(sets)
    }

    constructor (store: Store.TrackerCategoryStore)
      requires store.Valid()
      ensures Valid()
      ensures this.store == store && sets == Idle && updates == [] && rowCountReports == []
    {
      this.store := store;
      sets := Idle;
      updates := [];
      rowCountReports := [];
    }

    /** The fetched objects: every stored category, titles descending; none when the fetch fails. */
    function Fetched(): (r: seq<CategoryEntity>)
      reads this, store
      ensures multiset(r) == multiset(store.List())
      ensures SortedBy(r, CategoryKey, true)
    {
      FetchCategories(store.List())
    }

    /** `numberOfSections`: the one unnamed section, or none when the fetch failed. */
    function NumberOfSections(): (n: nat)
      reads this, store
      ensures n == if store.readable then 1 else 0
    {
      if store.readable then 1 else 0
    }

    /** `numberOfRowsInSection`: every stored category is a row; the count is reported, then returned. */
    method NumberOfRowsInSection(section: int) returns (n: int)
      requires store.readable ==> section == 0
      modifies this
      ensures n == store.Count()
      ensures rowCountReports == old(rowCountReports) + [n]
      ensures sets == old(sets) && updates == old(updates)
    {
      assert |multiset(Fetched())| == |multiset(store.List())|;
      n := |Fetched()|;
      rowCountReports := rowCountReports + [n];
    }

    /** `find(at:)`: `object(at:)`, which traps outside the fetched objects. */
    function FindAt(p: IndexPath): (r: CategoryEntity)
      reads this, store
      requires p.section == 0 && p.item < |Fetched()|
      ensures r in store.categories && store.readable
    {
      assert Fetched()[p.item] in multiset(store.List());
      Fetched()[p.item]
    }

    /** `find(by:)`: the first fetched category with the title. */
    function FindBy(title: string): (r: Option<CategoryEntity>)
      reads this, store
      ensures r.Some? ==> r.value in store.categories && r.value.title == Some(title)
      ensures r.None? <==> store.FindBy(title).None?
      ensures r.Some? ==> exists i :: 0 <= i < |Fetched()| && Fetched()[i] == r.value && forall j :: 0 <= j < i ==> Fetched()[j].title != Some(title)
    {
      Store.FindByTitleSameMembers(Fetched(), store.List(), title);
      Store.FindByTitle(Fetched(), title)
    }

    /**
     * `addOrUpdateRecord(_:at:)`: nothing when the title is already fetched;
     * otherwise a new category without a path, or the fetched category at the
     * path takes the title. Titles that were distinct stay distinct.
     */
    method AddOrUpdateRecord(title: string, p: Option<IndexPath>)
      requires Valid()
      requires FindBy(title).None? && p.Some? ==> p.value.section == 0 && p.value.item < |Fetched()|
      modifies store
      ensures Valid()
      ensures old(FindBy(title)).Some? ==> store.categories == old(store.categories)
      ensures old(FindBy(title)).None? && p.None? ==>
        store.categories == old(store.categories) + [CategoryEntity(old(store.nextOid), Some(title))]
      ensures old(FindBy(title)).None? && p.Some? ==>
        store.categories == Store.Retitled(old(store.categories), old(Fetched()[p.value.item]).oid, title)
      ensures store.readable && Store.DistinctTitles(old(store.categories)) ==> Store.DistinctTitles(store.categories)
      ensures store.readable == old(store.readable)
    {
      if FindBy(title).None? {
        if p.None? {
          AddedKeepsTitlesDistinct(store.categories, title, store.nextOid);
          store.Add(title);
        } else {
          var existing := FindAt(p.value);
          RenameKeepsTitlesDistinct(store.categories, existing.oid, title);
          store.Update(existing.oid, title);
        }
      }
    }

    /** `deleteRecord(at:)`: the category at the path is deleted. */
    method DeleteRecord(p: IndexPath)
      requires Valid()
      requires p.section == 0 && p.item < |Fetched()|
      modifies store
      ensures Valid()
      ensures store.categories == Store.WithoutOid(old(store.categories), old(Fetched()[p.item]).oid)
      ensures old(Fetched()[p.item]) !in store.categories
      ensures store.readable == old(store.readable)
    {
      var entity := FindAt(p);
      store.Delete(entity.oid);
    }

    /** `controllerWillChangeContent`: the three sets start empty. */
    method ControllerWillChangeContent()
      requires Valid()
      modifies this
      ensures Valid()
      ensures sets == Opened && updates == old(updates) && rowCountReports == old(rowCountReports)
    {
      sets := Opened;
    }

    /** `controller(_:didChange:at:for:newIndexPath:)`. */
    method ControllerDidChange(c: ObjectChange)
      requires Valid()
      modifies this
      ensures Valid()
      ensures sets == Note(old(sets), c) && updates == old(updates) && rowCountReports == old(rowCountReports)
    {
      sets := Note(sets, c);
    }

    /** `controllerDidChangeContent`: the collected sets go to `didUpdate`, once, and are cleared. */
    method ControllerDidChangeContent()
      requires Valid()
      modifies this
      ensures Valid()
      ensures Finish(old(sets)).0.Some? ==> updates == old(updates) + [Finish(old(sets)).0.value]
      ensures Finish(old(sets)).0.None? ==> updates == old(updates)
      ensures sets == Finish(old(sets)).1 && rowCountReports == old(rowCountReports)
    {
      var (u, s) := Finish(sets);
      if u.Some? {
        updates := updates + [u.value];
      }
      sets := s;
    }
  }
}
