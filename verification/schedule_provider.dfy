/**
 * The schedules provider: a fetched-results controller over the schedule
 * store without sort descriptors (the store's order), one section, and a
 * delegate that receives each batch of changes as three index-path sets.
 */
module ScheduleProvider {
  import opened Base
  import opened Entities
  import opened ChangeBatch
  import Store = TrackerScheduleStore

  class ScheduleProvider {
    const store: Store.TrackerScheduleStore
    /** `insertedIndexes`, `deletedIndexes`, `updatedIndexes`. */
    var sets: ItemSets
    /** The updates handed to the delegate's `didUpdate`, oldest first. */
    var updates: seq<ItemChanges>

    ghost predicate Valid()
      reads this, store
    {
      store.Valid() && Uniform(sets)
    }

    constructor (store: Store.TrackerScheduleStore)
      requires store.Valid()
      ensures Valid()
      ensures this.store == store && sets == Idle && updates == []
    {
      this.store := store;
      sets := Idle;
      updates := [];
    }

    /** `numberOfSections`: the one unnamed section, or none when the fetch failed. */
    function NumberOfSections(): (n: nat)
      reads this, store
      ensures n == if store.readable then 1 else 0
    {
      if store.readable then 1 else 0
    }

    /** `numberOfRowsInSection`: every stored schedule is a row. Asking for another section traps. */
    function NumberOfRowsInSection(section: int): (n: nat)
      reads this, store
      requires store.readable ==> section == 0
      ensures n == store.Count()
      ensures !store.readable ==> n == 0
    {
      |store.List()|
    }

    /** `find(at:)`: `object(at:)`, which traps outside the fetched objects. */
    function FindAt(p: IndexPath): (r: ScheduleEntity)
      reads this, store
      requires p.section == 0 && p.item < store.Count()
      ensures r == store.FindAt(p.item) && r in store.schedules
    {
      store.List()[p.item]
    }

    /** `addRecord`: the store's new schedule, returned. */
    method AddRecord(days: Option<seq<string>>) returns (e: ScheduleEntity)
      requires Valid()
      modifies store
      ensures Valid()
      ensures e.selectedDays == days && e !in old(store.schedules)
      ensures store.schedules == old(store.schedules) + [e]
      ensures store.readable == old(store.readable)
    {
      e := store.Add(days);
    }

    /** `updateRecord(at:_:)`: the schedule at the path takes the days. */
    method UpdateRecord(p: IndexPath, days: Option<seq<string>>)
      requires Valid()
      requires p.section == 0 && p.item < store.Count()
      modifies store
      ensures Valid()
      ensures store.schedules == Store.Rescheduled(old(store.schedules), old(store.schedules)[p.item].oid, days)
      ensures store.schedules[p.item].selectedDays == days
      ensures store.readable == old(store.readable)
    {
      var entity := FindAt(p);
      store.Update(entity.oid, days);
    }

    /** `deleteRecord(at:)`: the schedule at the path is deleted. */
    method DeleteRecord(p: IndexPath)
      requires Valid()
      requires p.section == 0 && p.item < store.Count()
      modifies store
      ensures Valid()
      ensures store.schedules == Store.WithoutOid(old(store.schedules), old(store.schedules)[p.item].oid)
      ensures old(store.schedules)[p.item] !in store.schedules
      ensures store.readable == old(store.readable)
    {
      var entity := FindAt(p);
      store.Delete(entity.oid);
    }

    /** `controllerWillChangeContent`: the three sets start empty. */
    method ControllerWillChangeContent()
      requires Valid()
      modifies this
      ensures Valid()
      ensures sets == Opened && updates == old(updates)
    {
      sets := Opened;
    }

    /** `controller(_:didChange:at:for:newIndexPath:)`. */
    method ControllerDidChange(c: ObjectChange)
      requires Valid()
      modifies this
      ensures Valid()
      ensures sets == Note(old(sets), c) && updates == old(updates)
    {
      sets := Note(sets, c);
    }

    /** `controllerDidChangeContent`: the collected sets go to the delegate, once, and are cleared. */
    method ControllerDidChangeContent()
      requires Valid()
      modifies this
      ensures Valid()
      ensures Finish(old(sets)).0.Some? ==> updates == old(updates) + [Finish(old(sets)).0.value]
      ensures Finish(old(sets)).0.None? ==> updates == old(updates)
      ensures sets == Finish(old(sets)).1
    {
      var (u, s) := Finish(sets);
      if u.Some? {
        updates := updates + [u.value];
      }
      sets := s;
    }
  }
}
