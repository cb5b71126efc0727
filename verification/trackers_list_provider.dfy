/**
 * The trackers provider of the trackers list: a fetched-results controller
 * over the tracker store, filtered by the predicate the current filters
 * build, sorted by category title and title, one section per category
 * title. It forwards every content change as a plain `didUpdate`.
 */
module TrackersListProvider {
  import opened Base
  import opened Entities
  import opened Predicates
  import opened FetchedResults
  import opened FiltersModel
  import opened FiltersPredicateBuilder
  import Store = TrackerStore

  /**
   * `listByDate`: the stored trackers scheduled on the filters' day (the
   * all filter of that day); none without a day.
   */
  function TrackersOnDay(store: seq<TrackerEntity>, filters: Option<Filters>): (r: seq<TrackerEntity>)
    ensures filters.None? || filters.value.date.None? ==> r == []
    ensures filters.Some? && filters.value.date.Some? ==>
      forall t :: t in r <==> t in store && ScheduledOn(t, WeekdayName(filters.value.date.value))
  {
    var f := Filters(if filters.Some? then filters.value.date else None, All);
    var p := Build(f);
    if p.None? then [] else Select(store, p.value)
  }

  /** Whether a day keeps a tracker does not depend on the filter type the list shows. */
  lemma TrackersOnDayIgnoreType(store: seq<TrackerEntity>, d: Date, a: FilterType, b: FilterType)
    ensures TrackersOnDay(store, Some(Filters(Some(d), a))) == TrackersOnDay(store, Some(Filters(Some(d), b)))
  {
  }

  class TrackerProvider {
    const store: Store.TrackerStore
    var filters: Option<Filters>
    /** How many times `didUpdate` has been called. */
    var didUpdateCount: nat

    ghost predicate Valid()
      reads this, store
    {
      store.Valid()
    }

    constructor (store: Store.TrackerStore, filters: Option<Filters>)
      requires store.Valid()
      ensures Valid()
      ensures this.store == store && this.filters == filters && didUpdateCount == 0
    {
      this.store := store;
      this.filters := filters;
      didUpdateCount := 0;
    }

    /** `predicate`, which is also always the fetch request's predicate. */
    function Predicate(): (p: Option<Predicate>)
      reads this
      ensures p.None? <==> filters.None? || filters.value.date.None?
      ensures p.Some? ==> forall t :: Eval(p.value, t) <==> Keeps(filters.value, t)
    {
      BuilderPredicate(Builder(filters))
    }

    /** The fetched objects: the trackers the predicate admits, sorted; none when the fetch fails. */
    function Results(): (r: seq<TrackerEntity>)
      reads this, store
      ensures forall t :: t in r <==> t in store.List() && (Predicate().Some? ==> Keeps(filters.value, t))
    {
      var r := FetchTrackers(store.List(), Predicate());
      assert forall t :: t in r <==> t in multiset(r);
      r
    }

    function Sections(): seq<Section<TrackerEntity>>
      reads this, store
    {
      Sectioned(Results(), CategoryTitle)
    }

    /** `listByDate`. */
    function ListByDate(): (r: seq<TrackerEntity>)
      reads this, store
      ensures forall t :: t in r ==> t in store.trackers
      ensures filters.None? || filters.value.date.None? ==> r == []
      ensures filters.Some? && filters.value.date.Some? ==>
        forall t :: t in r <==> t in store.List() && ScheduledOn(t, WeekdayName(filters.value.date.value))
    {
      TrackersOnDay(store.List(), filters)
    }

    /** `numberOfSections`: one section per category title among the results. */
    function NumberOfSections(): (n: nat)
      reads this, store
      ensures n == 0 <==> Results() == []
    {
      |Sections()|
    }

    /**
     * `numberOfRowsInSection`: the objects of that section, or 0 when the
     * fetch failed (there are no sections then). Another section traps.
     */
    function NumberOfRowsInSection(section: nat): (n: nat)
      reads this, store
      requires store.readable ==> section < |Sections()|
      ensures store.readable ==> 1 <= n <= |Results()|
      ensures !store.readable ==> n == 0
    {
      if !store.readable then 0
      else
        FlattenLength(Sections(), section);
        |Sections()[section].objects|
    }

    /** `getSection`: nil when the fetch failed. Another section traps. */
    function GetSection(section: nat): (r: Option<Section<TrackerEntity>>)
      reads this, store
      requires store.readable ==> section < |Sections()|
      ensures r.None? <==> !store.readable
      ensures r.Some? ==> r.value.objects != [] && forall t :: t in r.value.objects ==> CategoryTitle(t) == r.value.name && t in Results()
    {
      if !store.readable then None
      else
        var r := Sections()[section];
        forall t | t in r.objects ensures t in Results() {
          InFlatten(Sections(), section, t);
        }
        Some(r)
    }

    /** `find(at:)`: `object(at:)`, which traps outside the sections. */
    function FindAt(section: nat, item: nat): (r: TrackerEntity)
      reads this, store
      requires section < |Sections()| && item < |Sections()[section].objects|
      ensures r in Results() && r in store.trackers
      ensures CategoryTitle(r) == Sections()[section].name
    {
      var r := Sections()[section].objects[item];
      InFlatten(Sections(), section, r);
      r
    }

    /** `find(by:)`: asks the store, so it finds trackers the filters hide as well. */
    function FindById(id: Uuid): (r: Option<TrackerEntity>)
      reads this, store
      ensures r.Some? ==> r.value in store.trackers && r.value.id == Some(id)
      ensures r.None? <==> !store.readable || forall t :: t in store.trackers ==> t.id != Some(id)
      ensures r.Some? ==> exists i :: 0 <= i < |store.trackers| && store.trackers[i] == r.value && forall j :: 0 <= j < i ==> store.trackers[j].id != Some(id)
    {
      store.Find(id)
    }

    /** `filter`: the new filters make the predicate, the fetch is redone and `didUpdate` is called. */
    method Filter(f: Filters)
      requires Valid()
      modifies this
      ensures Valid()
      ensures filters == Some(f) && didUpdateCount == old(didUpdateCount) + 1
      ensures Results() == FetchTrackers(store.List(), Build(f))
    {
      filters := Some(f);
      didUpdateCount := didUpdateCount + 1;
    }

    /** `addRecord`: the store adds the tracker with the category and schedule. */
    method AddRecord(value: TrackerValue, category: CategoryEntity, schedule: ScheduleEntity, newId: Uuid)
      requires Valid()
      modifies store
      ensures Valid()
      ensures store.trackers == old(store.trackers) + [Store.NewTracker(old(store.nextOid), newId, value, category, schedule)]
      ensures store.readable == old(store.readable)
    {
      store.Add(value, category, schedule, newId);
    }

    /** `deleteRecord(at:)`: the tracker at the path is deleted. */
    method DeleteRecord(section: nat, item: nat)
      requires Valid()
      requires section < |Sections()| && item < |Sections()[section].objects|
      modifies store
      ensures Valid()
      ensures store.trackers == Store.Without(old(store.trackers), old(FindAt(section, item)).oid)
      ensures old(FindAt(section, item)) !in store.trackers
      ensures store.readable == old(store.readable)
    {
      var t := FindAt(section, item);
      store.Delete(t.oid);
    }

    /** `controllerDidChangeContent`: `didUpdate` is called. */
    method ControllerDidChangeContent()
      modifies this
      ensures filters == old(filters) && didUpdateCount == old(didUpdateCount) + 1
    {
      didUpdateCount := didUpdateCount + 1;
    }
  }
}
