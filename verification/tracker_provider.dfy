/**
 * The trackers provider of the earlier trackers screen: a fetched-results
 * controller over the trackers, sectioned by category title, whose
 * predicate keeps the trackers scheduled on the filters' weekday; the
 * delegate receives each batch as three index-path sets and two
 * section-index sets, and a reload after each change of filters.
 */
module TrackerProvider {
  import opened Base
  import opened Entities
  import opened Predicates
  import opened FetchedResults
  import opened ChangeBatch
  import opened FiltersModel
  import opened FiltersPredicateBuilder
  import Store = TrackerStore

  /**
   * `getPredicate(for:)`: nil without a date; otherwise irregular trackers or
   * those whose schedule lists the date's English weekday, lower-cased. The
   * filter type is not consulted.
   */
  function GetPredicate(filters: Option<Filters>): (p: Option<Predicate>)
    ensures p.None? <==> filters.None? || filters.value.date.None?
    ensures p.Some? ==> forall t :: Eval(p.value, t) <==> ScheduledOn(t, WeekdayName(filters.value.date.value))
  {
    if filters.None? || filters.value.date.None? then None
    else Some(Or(SelectedDaysIsNil, SelectedDaysContains(WeekdayName(filters.value.date.value))))
  }

  /** Whatever filter type is asked for, the predicate is the one the builder makes for the all filter. */
  lemma GetPredicateIsAllFilter(f: Filters)
    ensures GetPredicate(Some(f)) == Build(Filters(f.date, All))
  {
  }

  /** A fetch with `getPredicate` holds exactly the trackers scheduled on the filters' weekday, or all without a day. */
  lemma FetchedOnDay(ts: seq<TrackerEntity>, filters: Option<Filters>)
    ensures forall t :: t in FetchTrackers(ts, GetPredicate(filters)) <==>
      t in ts && (filters.Some? && filters.value.date.Some? ==> ScheduledOn(t, WeekdayName(filters.value.date.value)))
  {
    var r := FetchTrackers(ts, GetPredicate(filters));
    assert forall t :: t in r <==> t in multiset(r);
  }

  /** `StoreUpdate`. */
  datatype StoreUpdate = StoreUpdate(items: ItemChanges, insertedSections: set<nat>, deletedSections: set<nat>)

  /** The five optional sets kept between will-change and did-change. */
  datatype Batch = Batch(items: ItemSets, insertedSections: Option<set<nat>>, deletedSections: Option<set<nat>>)

  const BatchIdle := Batch(Idle, None, None)
  const BatchOpened := Batch(Opened, Some({}), Some({}))

  predicate BatchUniform(b: Batch)
  {
    Uniform(b.items) && (b.items.inserted.Some? <==> b.insertedSections.Some?)
    && (b.insertedSections.Some? <==> b.deletedSections.Some?)
  }

  /** A section change: inserted and deleted section indexes are kept, other kinds dropped. */
  function NoteSection(b: Batch, c: SectionChange): (r: Batch)
    ensures BatchUniform(b) ==> BatchUniform(r)
    ensures r.items == b.items
    ensures c.kind == Update || c.kind == Move ==> r == b
  {
    b.(insertedSections := Track(b.insertedSections, RecordedSection(c, Insert)),
       deletedSections := Track(b.deletedSections, RecordedSection(c, Delete)))
  }

  function SectionPositions(cs: seq<SectionChange>, kind: ChangeType): (ps: seq<Option<nat>>)
    ensures |ps| == |cs|
    ensures forall i :: 0 <= i < |cs| ==> ps[i] == RecordedSection(cs[i], kind)
  {
    if cs == [] then [] else [RecordedSection(cs[0], kind)] + SectionPositions(cs[1..], kind)
  }

  function NoteSections(b: Batch, cs: seq<SectionChange>): Batch
    decreases |cs|
  {
    if cs == [] then b else NoteSections(NoteSection(b, cs[0]), cs[1..])
  }

  lemma {:induction false} NoteSectionsTracks(b: Batch, cs: seq<SectionChange>)
    ensures NoteSections(b, cs) == b.(
      insertedSections := TrackAll(b.insertedSections, SectionPositions(cs, Insert)),
      deletedSections := TrackAll(b.deletedSections, SectionPositions(cs, Delete)))
    decreases |cs|
  {
    if cs != [] {
      NoteSectionsTracks(NoteSection(b, cs[0]), cs[1..]);
      assert SectionPositions(cs, Insert)[1..] == SectionPositions(cs[1..], Insert);
      assert SectionPositions(cs, Delete)[1..] == SectionPositions(cs[1..], Delete);
    }
  }

  /**
   * Section changes noted after will-change leave exactly the indexes of the
   * inserted sections and of the deleted sections, and no object path.
   */
  lemma SectionBatchCollects(cs: seq<SectionChange>)
    ensures NoteSections(BatchOpened, cs).items == Opened
    ensures NoteSections(BatchOpened, cs).insertedSections.Some? && NoteSections(BatchOpened, cs).deletedSections.Some?
    ensures forall k :: k in NoteSections(BatchOpened, cs).insertedSections.value <==>
      exists i :: 0 <= i < |cs| && cs[i] == SectionChange(Insert, k)
    ensures forall k :: k in NoteSections(BatchOpened, cs).deletedSections.value <==>
      exists i :: 0 <= i < |cs| && cs[i] == SectionChange(Delete, k)
  {
    NoteSectionsTracks(BatchOpened, cs);
    var ins := SectionPositions(cs, Insert);
    var del := SectionPositions(cs, Delete);
    TrackAllCollects(Some({}), ins);
    TrackAllCollects(Some({}), del);
    SectionPositionsMean(cs, Insert);
    SectionPositionsMean(cs, Delete);
  }

  /** The indexes a run of section changes records for a kind are those of the changes of that kind. */
  lemma SectionPositionsMean(cs: seq<SectionChange>, kind: ChangeType)
    ensures forall k :: k in Present(SectionPositions(cs, kind)) <==> exists i :: 0 <= i < |cs| && cs[i] == SectionChange(kind, k)
  {
    var ps := SectionPositions(cs, kind);
    forall k ensures k in Present(ps) <==> exists i :: 0 <= i < |cs| && cs[i] == SectionChange(kind, k) {
      if k in Present(ps) {
        var x :| x in ps && x.Some? && x.value == k;
        var i :| 0 <= i < |ps| && ps[i] == x;
        assert cs[i] == SectionChange(kind, k);
      }
      if exists i :: 0 <= i < |cs| && cs[i] == SectionChange(kind, k) {
        var i :| 0 <= i < |cs| && cs[i] == SectionChange(kind, k);
        assert ps[i] == Some(k) && ps[i] in ps;
      }
    }
  }

  /** `controllerDidChangeContent`: the update reported, when all five sets are present, and the sets after. */
  function FinishBatch(b: Batch): (r: (Option<StoreUpdate>, Batch))
    ensures BatchUniform(b) ==> BatchUniform(r.1)
    ensures r.0.Some? <==> Finish(b.items).0.Some? && b.insertedSections.Some? && b.deletedSections.Some?
    ensures r.0.Some? ==> r.0.value == StoreUpdate(Finish(b.items).0.value, b.insertedSections.value, b.deletedSections.value)
    ensures r.0.Some? ==> r.1 == BatchIdle
    ensures r.0.None? ==> r.1 == b
  {
    var (u, _) := Finish(b.items);
    if u.Some? && b.insertedSections.Some? && b.deletedSections.Some? then
      (Some(StoreUpdate(u.value, b.insertedSections.value, b.deletedSections.value)), BatchIdle)
    else (None, b)
  }

  /** The trackers after `update(_:_:)` of the object `oid`: title, emoji and color change. */
  function Edited(ts: seq<TrackerEntity>, oid: nat, value: TrackerValue): (r: seq<TrackerEntity>)
    ensures |r| == |ts|
    ensures forall i :: 0 <= i < |ts| && ts[i].oid != oid ==> r[i] == ts[i]
    ensures forall i :: 0 <= i < |ts| && ts[i].oid == oid ==>
      r[i] == ts[i].(title := Some(value.title), emoji := Some(value.emoji), color := Some(value.color))
  {
    seq(|ts|, i requires 0 <= i < |ts| =>
      if ts[i].oid == oid then ts[i].(title := Some(value.title), emoji := Some(value.emoji), color := Some(value.color))
      else ts[i])
  }

  /** Editing keeps every identity, so identities stay below the store's next one. */
  lemma EditedKeepsOidsBelow(ts: seq<TrackerEntity>, oid: nat, value: TrackerValue, next: nat)
    requires forall t :: t in ts ==> t.oid < next
    ensures forall t :: t in Edited(ts, oid, value) ==> t.oid < next
  {
    var r := Edited(ts, oid, value);
    forall t | t in r ensures t.oid < next {
      var i :| 0 <= i < |r| && r[i] == t;
      assert ts[i] in ts;
    }
  }

  class TrackerProvider {
    /** The tracker table (the tracker store's objects). */
    var trackers: seq<TrackerEntity>
    /** Whether fetches from the context currently succeed. */
    var readable: bool
    /** The identity the next new object gets. */
    var nextOid: nat
    var filters: Option<Filters>
    var batch: Batch
    /** The updates handed to the delegate's `didUpdate`, oldest first. */
    var updates: seq<StoreUpdate>
    /** How many times the delegate's `didReload` has been called. */
    var reloadCount: nat

    ghost predicate Valid()
      reads this
    {
      BatchUniform(batch) && forall t :: t in trackers ==> t.oid < nextOid
    }

    constructor (trackers: seq<TrackerEntity>, readable: bool, nextOid: nat, filters: Option<Filters>)
      requires forall t :: t in trackers ==> t.oid < nextOid
      ensures Valid()
      ensures this.trackers == trackers && this.readable == readable && this.nextOid == nextOid
      ensures this.filters == filters && batch == BatchIdle && updates == [] && reloadCount == 0
    {
      this.trackers := trackers;
      this.readable := readable;
      this.nextOid := nextOid;
      this.filters := filters;
      batch := BatchIdle;
      updates := [];
      reloadCount := 0;
    }

    /** The fetched objects: the trackers scheduled on the filters' weekday, sorted; none when the fetch fails. */
    function Results(): (r: seq<TrackerEntity>)
      reads this
      ensures forall t :: t in r <==>
        (readable && t in trackers && (filters.Some? && filters.value.date.Some? ==> ScheduledOn(t, WeekdayName(filters.value.date.value))))
    {
      FetchedOnDay(if readable then trackers else [], filters);
      FetchTrackers(if readable then trackers else [], GetPredicate(filters))
    }

    function Sections(): seq<Section<TrackerEntity>>
      reads this
    {
      Sectioned(Results(), CategoryTitle)
    }

    /** `numberOfSections`: one section per category title among the results. */
    function NumberOfSections(): (n: nat)
      reads this
      ensures n == 0 <==> Results() == []
    {
      |Sections()|
    }

    /**
     * `numberOfRowsInSection`: the objects of that section, or 0 when the
     * fetch failed. Another section traps.
     */
    function NumberOfRowsInSection(section: nat): (n: nat)
      reads this
      requires readable ==> section < |Sections()|
      ensures readable ==> 1 <= n <= |Results()|
      ensures !readable ==> n == 0
    {
      if !readable then 0
      else
        FlattenLength(Sections(), section);
        |Sections()[section].objects|
    }

    /** `getSection`: nil when the fetch failed. Another section traps. */
    function GetSection(section: nat): (r: Option<Section<TrackerEntity>>)
      reads this
      requires readable ==> section < |Sections()|
      ensures r.None? <==> !readable
      ensures r.Some? ==> r.value.objects != [] && forall t :: t in r.value.objects ==> CategoryTitle(t) == r.value.name && t in Results()
    {
      if !readable then None
      else
        var r := Sections()[section];
        forall t | t in r.objects ensures t in Results() {
          InFlatten(Sections(), section, t);
        }
        Some(r)
    }

    /** `find(at:)`: `object(at:)`, which traps outside the sections. */
    function FindAt(section: nat, item: nat): (r: TrackerEntity)
      reads this
      requires section < |Sections()| && item < |Sections()[section].objects|
      ensures r in Results() && r in trackers
    {
      var r := Sections()[section].objects[item];
      InFlatten(Sections(), section, r);
      r
    }

    /** `find(by:)`: searches the fetched objects only, so trackers the filters hide are not found. */
    function FindById(id: Uuid): (r: Option<TrackerEntity>)
      reads this
      ensures r.Some? ==> r.value in Results() && r.value.id == Some(id)
      ensures r.None? <==> forall t :: t in Results() ==> t.id != Some(id)
      ensures r.Some? ==> exists i :: 0 <= i < |Results()| && Results()[i] == r.value && forall j :: 0 <= j < i ==> Results()[j].id != Some(id)
    {
      Entities.FindById(Results(), id)
    }

    /** `filter(by:)`: the filters are kept, the fetch redone and `didReload` called. */
    method Filter(f: Filters)
      requires Valid()
      modifies this
      ensures Valid()
      ensures filters == Some(f) && reloadCount == old(reloadCount) + 1
      ensures Results() == FetchTrackers(if readable then trackers else [], Build(Filters(f.date, All)))
      ensures trackers == old(trackers) && readable == old(readable) && nextOid == old(nextOid)
      ensures batch == old(batch) && updates == old(updates)
    {
      filters := Some(f);
      reloadCount := reloadCount + 1;
    }

    /** `addRecord`: a new tracker with a fresh id, the values, the category and the schedule, as the tracker store adds it. */
    method AddRecord(value: TrackerValue, category: CategoryEntity, schedule: ScheduleEntity, newId: Uuid)
      requires Valid()
      modifies this
      ensures Valid()
      ensures trackers == old(trackers) + [Store.NewTracker(old(nextOid), newId, value, category, schedule)]
      ensures nextOid == old(nextOid) + 1
      ensures readable == old(readable) && filters == old(filters) && batch == old(batch)
      ensures updates == old(updates) && reloadCount == old(reloadCount)
    {
      trackers := trackers + [Store.NewTracker(nextOid, newId, value, category, schedule)];
      nextOid := nextOid + 1;
    }

    /** `updateRecord(at:_:)`: the tracker at the path takes the title, emoji and color. */
    method UpdateRecord(section: nat, item: nat, value: TrackerValue)
      requires Valid()
      requires section < |Sections()| && item < |Sections()[section].objects|
      modifies this
      ensures Valid()
      ensures trackers == Edited(old(trackers), old(FindAt(section, item)).oid, value)
      ensures readable == old(readable) && nextOid == old(nextOid) && filters == old(filters)
      ensures batch == old(batch) && updates == old(updates) && reloadCount == old(reloadCount)
    {
      var t := FindAt(section, item);
      EditedKeepsOidsBelow(trackers, t.oid, value, nextOid);
      trackers := Edited(trackers, t.oid, value);
    }

    /** `deleteRecord(at:)`: the tracker at the path is deleted. */
    method DeleteRecord(section: nat, item: nat)
      requires Valid()
      requires section < |Sections()| && item < |Sections()[section].objects|
      modifies this
      ensures Valid()
      ensures trackers == Store.Without(old(trackers), old(FindAt(section, item)).oid)
      ensures old(FindAt(section, item)) !in trackers
      ensures readable == old(readable) && nextOid == old(nextOid) && filters == old(filters)
      ensures batch == old(batch) && updates == old(updates) && reloadCount == old(reloadCount)
    {
      var t := FindAt(section, item);
      trackers := Store.Without(trackers, t.oid);
    }

    /** `controllerWillChangeContent`: all five sets start empty. */
    method ControllerWillChangeContent()
      requires Valid()
      modifies this
      ensures Valid()
      ensures batch == BatchOpened
      ensures trackers == old(trackers) && updates == old(updates) && filters == old(filters)
    {
      batch := BatchOpened;
    }

    /** `controller(_:didChange:at:for:newIndexPath:)`. */
    method ControllerDidChangeObject(c: ObjectChange)
      requires Valid()
      modifies this
      ensures Valid()
      ensures batch == old(batch).(items := Note(old(batch).items, c))
      ensures trackers == old(trackers) && updates == old(updates) && filters == old(filters)
    {
      batch := batch.(items := Note(batch.items, c));
    }

    /** `controller(_:didChange:atSectionIndex:for:)`. */
    method ControllerDidChangeSection(c: SectionChange)
      requires Valid()
      modifies this
      ensures Valid()
      ensures batch == NoteSection(old(batch), c)
      ensures trackers == old(trackers) && updates == old(updates) && filters == old(filters)
    {
      batch := NoteSection(batch, c);
    }

    /** `controllerDidChangeContent`: the collected sets go to the delegate, once, and are cleared. */
    method ControllerDidChangeContent()
      requires Valid()
      modifies this
      ensures Valid()
      ensures FinishBatch(old(batch)).0.Some? ==> updates == old(updates) + [FinishBatch(old(batch)).0.value]
      ensures FinishBatch(old(batch)).0.None? ==> updates == old(updates)
      ensures batch == FinishBatch(old(batch)).1
      ensures trackers == old(trackers) && filters == old(filters)
    {
      var (u, b) := FinishBatch(batch);
      if u.Some? {
        updates := updates + [u.value];
      }
      batch := b;
    }
  }
}
