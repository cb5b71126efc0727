/**
 * The CoreData entities of the tracker database, as values. Every object
 * carries `oid`, its managed-object identity; relationships are held by
 * value (a tracker holds its category, its schedule and its records).
 */
module Entities {
  import opened Base

  /** A `RecordCoreData`: the "dd.MM.yy" day a tracker was completed and its tracker's id. */
  datatype RecordEntity = RecordEntity(oid: nat, date: Option<string>, trackerId: Option<Uuid>)

  /** A `ScheduleCoreData`: the lower-case English names of the days, nil for an irregular event. */
  datatype ScheduleEntity = ScheduleEntity(oid: nat, selectedDays: Option<seq<string>>)

  /** A `CategoryCoreData`. */
  datatype CategoryEntity = CategoryEntity(oid: nat, title: Option<string>)

  /** A `TrackerCoreData` with its relationships. */
  datatype TrackerEntity = TrackerEntity(
    oid: nat,
    id: Option<Uuid>,
    title: Option<string>,
    emoji: Option<string>,
    color: Option<Color>,
    pinned: bool,
    category: Option<CategoryEntity>,
    schedule: Option<ScheduleEntity>,
    records: seq<RecordEntity>)

  /** The app's `Tracker` struct: what a new or edited tracker is given. */
  datatype TrackerValue = TrackerValue(title: string, color: Color, emoji: string, pinned: Option<bool>)

  /** The key path "category.title". */
  function CategoryTitle(t: TrackerEntity): Option<string>
  {
    if t.category.None? then None else t.category.value.title
  }

  /** The key path "schedule.selectedDays". */
  function SelectedDays(t: TrackerEntity): Option<seq<string>>
  {
    if t.schedule.None? then None else t.schedule.value.selectedDays
  }

  /** The index of `first(where: { $0.id == id })`. */
  function FirstWithId(ts: seq<TrackerEntity>, id: Uuid): (r: Option<nat>)
    ensures r.Some? ==> r.value < |ts| && ts[r.value].id == Some(id)
    ensures r.Some? ==> forall j :: 0 <= j < r.value ==> ts[j].id != Some(id)
    ensures r.None? <==> forall j :: 0 <= j < |ts| ==> ts[j].id != Some(id)
  {
    if ts == [] then None
    else if ts[0].id == Some(id) then Some(0)
    else
      var rest := FirstWithId(ts[1..], id);
      if rest.None? then None else Some(rest.value + 1)
  }

  /** The tracker `first(where: { $0.id == id })` finds. */
  function FindById(ts: seq<TrackerEntity>, id: Uuid): (r: Option<TrackerEntity>)
    ensures r.Some? ==> r.value in ts && r.value.id == Some(id)
    ensures r.None? <==> forall t :: t in ts ==> t.id != Some(id)
    ensures r.Some? ==> exists i :: 0 <= i < |ts| && ts[i] == r.value && forall j :: 0 <= j < i ==> ts[j].id != Some(id)
  {
    var k := FirstWithId(ts, id);
    if k.None? then None else Some(ts[k.value])
  }
}
