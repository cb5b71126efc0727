/**
 * `TrackerStore`: the tracker table. A fetch that fails yields no trackers;
 * `readable` says whether fetches currently succeed.
 */
module TrackerStore {
  import opened Base
  import opened Entities
  import opened Predicates

  /** The entity `add` creates: a fresh id, the given values, the category and the schedule, no records. */
  function NewTracker(oid: nat, id: Uuid, value: TrackerValue, category: CategoryEntity, schedule: ScheduleEntity): TrackerEntity
  {
    TrackerEntity(oid, Some(id), Some(value.title), Some(value.emoji), Some(value.color), false, Some(category), Some(schedule), [])
  }

  /** The trackers after `update(entity, value, category:, schedule:)` of the entity `oid`. */
  function WithUpdate(ts: seq<TrackerEntity>, oid: nat, value: TrackerValue, category: CategoryEntity, schedule: ScheduleEntity)
    : (r: seq<TrackerEntity>)
    ensures |r| == |ts|
    ensures forall i :: 0 <= i < |ts| ==>
      r[i].oid == ts[i].oid && r[i].id == ts[i].id && r[i].pinned == ts[i].pinned && r[i].records == ts[i].records
    ensures forall i :: 0 <= i < |ts| && ts[i].oid != oid ==> r[i] == ts[i]
    ensures forall i :: 0 <= i < |ts| && ts[i].oid == oid ==>
      r[i].title == Some(value.title) && r[i].emoji == Some(value.emoji) && r[i].color == Some(value.color)
      && r[i].category == Some(category) && r[i].schedule == Some(schedule)
  {
    seq(|ts|, i requires 0 <= i < |ts| =>
      if ts[i].oid == oid then
        ts[i].(title := Some(value.title), emoji := Some(value.emoji), color := Some(value.color),
               category := Some(category), schedule := Some(schedule))
      else ts[i])
  }

  /** The trackers after `setPinned(entity, state)` of the entity `oid`. */
  function WithPinned(ts: seq<TrackerEntity>, oid: nat, state: bool): (r: seq<TrackerEntity>)
    ensures |r| == |ts|
    ensures forall i :: 0 <= i < |ts| && ts[i].oid != oid ==> r[i] == ts[i]
    ensures forall i :: 0 <= i < |ts| && ts[i].oid == oid ==> r[i] == ts[i].(pinned := state)
  {
    seq(|ts|, i requires 0 <= i < |ts| => if ts[i].oid == oid then ts[i].(pinned := state) else ts[i])
  }

  /** The trackers after `delete(entity)` of the entity `oid`, in the same order. */
  function Without(ts: seq<TrackerEntity>, oid: nat): (r: seq<TrackerEntity>)
    ensures |r| <= |ts|
    ensures forall t :: t in r <==> t in ts && t.oid != oid
  {
    if ts == [] then []
    else if ts[0].oid == oid then Without(ts[1..], oid)
    else [ts[0]] + Without(ts[1..], oid)
  }

  predicate UniqueOids(ts: seq<TrackerEntity>)
  {
    forall i, j :: 0 <= i < j < |ts| ==> ts[i].oid != ts[j].oid
  }

  /** Deleting an object that is stored takes exactly one tracker away. */
  lemma {:induction false} DeleteRemovesOne(ts: seq<TrackerEntity>, oid: nat)
    requires UniqueOids(ts)
    requires exists t :: t in ts && t.oid == oid
    ensures |Without(ts, oid)| == |ts| - 1
    decreases |ts|
  {
    if ts[0].oid == oid {
      assert forall t :: t in ts[1..] ==> t.oid != oid by {
        forall t | t in ts[1..] ensures t.oid != oid {
          var j :| 0 <= j < |ts[1..]| && ts[1..][j] == t;
          assert ts[j + 1] == t;
        }
      }
      WithoutNothing(ts[1..], oid);
    } else {
      var t :| t in ts && t.oid == oid;
      assert t in ts[1..];
      DeleteRemovesOne(ts[1..], oid);
    }
  }

  lemma {:induction false} WithoutNothing(ts: seq<TrackerEntity>, oid: nat)
    requires forall t :: t in ts ==> t.oid != oid
    ensures Without(ts, oid) == ts
    decreases |ts|
  {
    if ts != [] {
      assert ts[0] in ts;
      WithoutNothing(ts[1..], oid);
      assert ts == [ts[0]] + ts[1..];
    }
  }

  /** A tracker added with an id no stored tracker has is what `find(by:)` then finds. */
  lemma AddedTrackerIsFound(ts: seq<TrackerEntity>, oid: nat, id: Uuid, value: TrackerValue, c: CategoryEntity, s: ScheduleEntity)
    requires forall t :: t in ts ==> t.id != Some(id)
    ensures FindById(ts + [NewTracker(oid, id, value, c, s)], id) == Some(NewTracker(oid, id, value, c, s))
  {
    var n := NewTracker(oid, id, value, c, s);
    var found := FindById(ts + [n], id);
    assert n in ts + [n];
    assert found.Some?;
    assert found.value in ts + [n];
  }

  class TrackerStore {
    var trackers: seq<TrackerEntity>
    /** Whether fetches from the context currently succeed. */
    var readable: bool
    /** The identity the next new object gets. */
    var nextOid: nat

    ghost predicate Valid()
      reads this
    {
      UniqueOids(trackers) && forall t :: t in trackers ==> t.oid < nextOid
    }

    constructor (trackers: seq<TrackerEntity>, readable: bool, nextOid: nat)
      requires UniqueOids(trackers) && forall t :: t in trackers ==> t.oid < nextOid
      ensures Valid()
      ensures this.trackers == trackers && this.readable == readable && this.nextOid == nextOid
    {
      this.trackers := trackers;
      this.readable := readable;
      this.nextOid := nextOid;
    }

    /** `list`: every tracker, or none when the fetch fails. */
    function List(): (r: seq<TrackerEntity>)
      reads this
      ensures readable ==> r == trackers
      ensures !readable ==> r == []
    {
      if readable then trackers else []
    }

    /** `list(by:)`: the trackers the predicate admits, or none when the fetch fails. */
    function ListBy(p: Predicate): (r: seq<TrackerEntity>)
      reads this
      ensures forall t :: t in r <==> readable && t in trackers && Eval(p, t)
    {
      Select(List(), p)
    }

    /** `find(by:)`: the first stored tracker with the id. */
    function Find(id: Uuid): (r: Option<TrackerEntity>)
      reads this
      ensures r.Some? ==> readable && r.value in trackers && r.value.id == Some(id)
      ensures r.None? <==> !readable || forall t :: t in trackers ==> t.id != Some(id)
      ensures r.Some? ==> exists i :: 0 <= i < |trackers| && trackers[i] == r.value && forall j :: 0 <= j < i ==> trackers[j].id != Some(id)
    {
      FindById(List(), id)
    }

    method Add(value: TrackerValue, category: CategoryEntity, schedule: ScheduleEntity, newId: Uuid)
      requires Valid()
      modifies this
      ensures Valid()
      ensures trackers == old(trackers) + [NewTracker(old(nextOid), newId, value, category, schedule)]
      ensures readable == old(readable) && nextOid == old(nextOid) + 1
    {
      trackers := trackers + [NewTracker(nextOid, newId, value, category, schedule)];
      nextOid := nextOid + 1;
    }

    method Update(oid: nat, value: TrackerValue, category: CategoryEntity, schedule: ScheduleEntity)
      requires Valid()
      modifies this
      ensures Valid()
      ensures trackers == WithUpdate(old(trackers), oid, value, category, schedule)
      ensures readable == old(readable) && nextOid == old(nextOid)
    {
      trackers := WithUpdate(trackers, oid, value, category, schedule);
    }

    method SetPinned(oid: nat, state: bool)
      requires Valid()
      modifies this
      ensures Valid()
      ensures trackers == WithPinned(old(trackers), oid, state)
      ensures readable == old(readable) && nextOid == old(nextOid)
    {
      trackers := WithPinned(trackers, oid, state);
    }

    method Delete(oid: nat)
      requires Valid()
      modifies this
      ensures Valid()
      ensures trackers == Without(old(trackers), oid)
      ensures readable == old(readable) && nextOid == old(nextOid)
    {
      WithoutKeepsUnique(trackers, oid);
      trackers := Without(trackers, oid);
    }
  }

  lemma {:induction false} WithoutKeepsUnique(ts: seq<TrackerEntity>, oid: nat)
    requires UniqueOids(ts)
    ensures UniqueOids(Without(ts, oid))
    decreases |ts|
  {
    if ts != [] {
      WithoutKeepsUnique(ts[1..], oid);
      assert UniqueOids(ts[1..]) by {
        forall i, j | 0 <= i < j < |ts[1..]| ensures ts[1..][i].oid != ts[1..][j].oid {
          assert ts[1..][i] == ts[i + 1] && ts[1..][j] == ts[j + 1];
        }
      }
      if ts[0].oid != oid {
        var rest := Without(ts[1..], oid);
        forall j | 0 <= j < |rest| ensures ts[0].oid != rest[j].oid {
          assert rest[j] in rest;
          var k :| 0 <= k < |ts[1..]| && ts[1..][k] == rest[j];
          assert ts[k + 1] == rest[j];
        }
      }
    }
  }
}
