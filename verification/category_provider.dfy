/**
 * The categories provider of the new-tracker form: a fetched-results
 * controller over the category store, titles descending, one section, and a
 * delegate that receives each batch of changes as three index-path sets.
 */
module CategoryProvider {
  import opened Base
  import opened Entities
  import opened Ordering
  import opened FetchedResults
  import opened ChangeBatch
  import Store = TrackerCategoryStore

  class CategoryProvider {
    const store: Store.TrackerCategoryStore
    /** `insertedIndexes`, `deletedIndexes`, `updatedIndexes`. */
    var sets: ItemSets
    /** The updates handed to the delegate's `didUpdate`, oldest first. */
    var updates: seq<ItemChanges>

    ghost predicate Valid()
      reads this, store
    {
      store.Valid() && Uniform(sets)
    }

    constructor (store: Store.TrackerCategoryStore)
      requires store.Valid()
      ensures Valid()
      ensures this.store == store && sets == Idle && updates == []
    {
      this.store := store;
      sets := Idle;
      updates := [];
    }

    /** The fetched objects: every stored category, titles descending; none when the fetch fails. */
    function Fetched(): (r: seq<CategoryEntity>)
      reads this, store
      ensures multiset(r) == multiset(store.List())
      ensures SortedBy(r, CategoryKey, true)
    {
      FetchCategories(store.List())
    }

    /** `numberOfSections`: the one unnamed section, or none when the fetch failed. */
    function NumberOfSections(): (n: nat)
      reads this, store
      ensures n == if store.readable then 1 else 0
    {
      if store.readable then 1 else 0
    }

    /** `numberOfRowsInSection`: every stored category is a row. Asking for another section traps. */
    function NumberOfRowsInSection(section: int): (n: nat)
      reads this, store
      requires store.readable ==> section == 0
      ensures n == store.Count()
    {
      assert |multiset(Fetched())| == |multiset(store.List())|;
      |Fetched()|
    }

    /** `find(at:)`: `object(at:)`, which traps outside the fetched objects. */
    function FindAt(p: IndexPath): (r: CategoryEntity)
      reads this, store
      requires p.section == 0 && p.item < |Fetched()|
      ensures r in store.categories && store.readable
    {
      assert Fetched()[p.item] in multiset(store.List());
      Fetched()[p.item]
    }

    /** `find(by:)`: the first fetched category with the title. */
    function FindBy(title: string): (r: Option<CategoryEntity>)
      reads this, store
      ensures r.Some? ==> r.value in store.categories && r.value.title == Some(title)
      ensures r.None? <==> store.FindBy(title).None?
      ensures r.Some? ==> exists i :: 0 <= i < |Fetched()| && Fetched()[i] == r.value && forall j :: 0 <= j < i ==> Fetched()[j].title != Some(title)
    {
      Store.FindByTitleSameMembers(Fetched(), store.List(), title);
      Store.FindByTitle(Fetched(), title)
    }

    /** `addRecord`: a category with the title, unless one is already fetched. */
    method AddRecord(title: string)
      requires Valid()
      modifies store
      ensures Valid()
      ensures store.readable ==> store.categories == Store.AddOrUpdated(old(store.categories), title, None, old(store.nextOid))
      ensures !store.readable ==> store.categories == old(store.categories) + [CategoryEntity(old(store.nextOid), Some(title))]
      ensures store.readable == old(store.readable)
    {
      if FindBy(title).Some? {
        return;
      }
      store.Add(title);
    }

    /** `updateRecord(at:_:)`: the category at the path takes the title. */
    method UpdateRecord(p: IndexPath, title: string)
      requires Valid()
      requires p.section == 0 && p.item < |Fetched()|
      modifies store
      ensures Valid()
      ensures store.categories == Store.Retitled(old(store.categories), old(Fetched()[p.item]).oid, title)
      ensures store.readable == old(store.readable)
    {
      var entity := FindAt(p);
      store.Update(entity.oid, title);
    }

    /** `deleteRecord(at:)`: the category at the path is deleted. */
    method DeleteRecord(p: IndexPath)
      requires Valid()
      requires p.section == 0 && p.item < |Fetched()|
      modifies store
      ensures Valid()
      ensures store.categories == Store.WithoutOid(old(store.categories), old(Fetched()[p.item]).oid)
      ensures old(Fetched()[p.item]) !in store.categories
      ensures store.readable == old(store.readable)
    {
      var entity := FindAt(p);
      store.Delete(entity.oid);
    }

    /** `controllerWillChangeContent`: the three sets start empty. */
    method ControllerWillChangeContent()
      requires Valid()
      modifies this
      ensures Valid()
      ensures sets == Opened && updates == old(updates)
    {
      sets := Opened;
    }

    /** `controller(_:didChange:at:for:newIndexPath:)`. */
    method ControllerDidChange(c: ObjectChange)
      requires Valid()
      modifies this
      ensures Valid()
      ensures sets == Note(old(sets), c) && updates == old(updates)
    {
      sets := Note(sets, c);
    }

    /** `controllerDidChangeContent`: the collected sets go to the delegate, once, and are cleared. */
    method ControllerDidChangeContent()
      requires Valid()
      modifies this
      ensures Valid()
      ensures Finish(old(sets)).0.Some? ==> updates == old(updates) + [Finish(old(sets)).0.value]
      ensures Finish(old(sets)).0.None? ==> updates == old(updates)
      ensures sets == Finish(old(sets)).1
    {
      var (u, s) := Finish(sets);
      if u.Some? {
        updates := updates + [u.value];
      }
      sets := s;
    }
  }
}
