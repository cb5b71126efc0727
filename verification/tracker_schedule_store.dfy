/**
 * `TrackerScheduleStore`: the schedule table. Schedules are fetched without a
 * sort, in the order they were stored; a failed fetch yields none.
 */
module TrackerScheduleStore {
  import opened Base
  import opened Entities

  predicate UniqueOids(ss: seq<ScheduleEntity>)
  {
    forall i, j :: 0 <= i < j < |ss| ==> ss[i].oid != ss[j].oid
  }

  /** The schedules after `update(entity, schedule)`: the object `oid` takes the new days. */
  function Rescheduled(ss: seq<ScheduleEntity>, oid: nat, days: Option<seq<string>>): (r: seq<ScheduleEntity>)
    ensures |r| == |ss|
    ensures forall i :: 0 <= i < |ss| ==> r[i].oid == ss[i].oid
    ensures forall i :: 0 <= i < |ss| ==> r[i].selectedDays == if ss[i].oid == oid then days else ss[i].selectedDays
  {
    seq(|ss|, i requires 0 <= i < |ss| => if ss[i].oid == oid then ss[i].(selectedDays := days) else ss[i])
  }

  /** The schedules after `delete(entity)` of the object `oid`, in the same order. */
  function WithoutOid(ss: seq<ScheduleEntity>, oid: nat): (r: seq<ScheduleEntity>)
    ensures |r| <= |ss|
    ensures forall s :: s in r <==> s in ss && s.oid != oid
  {
    if ss == [] then []
    else if ss[0].oid == oid then WithoutOid(ss[1..], oid)
    else [ss[0]] + WithoutOid(ss[1..], oid)
  }

  /** With unique identities, `update(at:)` changes the schedule at that index and no other. */
  lemma UpdateAtChangesOnlyThatSchedule(ss: seq<ScheduleEntity>, index: nat, days: Option<seq<string>>)
    requires UniqueOids(ss) && index < |ss|
    ensures var r := Rescheduled(ss, ss[index].oid, days);
      r[index] == ss[index].(selectedDays := days)
      && forall i :: 0 <= i < |ss| && i != index ==> r[i] == ss[i]
  {
    var r := Rescheduled(ss, ss[index].oid, days);
    forall i | 0 <= i < |ss| && i != index ensures r[i] == ss[i] {
      if i < index { assert ss[i].oid != ss[index].oid; }
      else { assert ss[index].oid != ss[i].oid; }
    }
  }

  lemma {:induction false} WithoutOidUnique(ss: seq<ScheduleEntity>, oid: nat)
    requires UniqueOids(ss)
    ensures UniqueOids(WithoutOid(ss, oid))
    decreases |ss|
  {
    if ss != [] {
      assert UniqueOids(ss[1..]) by {
        forall i, j | 0 <= i < j < |ss[1..]| ensures ss[1..][i].oid != ss[1..][j].oid {
          assert ss[1..][i] == ss[i + 1] && ss[1..][j] == ss[j + 1];
        }
      }
      WithoutOidUnique(ss[1..], oid);
      if ss[0].oid != oid {
        var rest := WithoutOid(ss[1..], oid);
        forall j | 0 <= j < |rest| ensures ss[0].oid != rest[j].oid {
          assert rest[j] in rest;
          var k :| 0 <= k < |ss[1..]| && ss[1..][k] == rest[j];
          assert ss[k + 1] == rest[j];
        }
      }
    }
  }

  /** With unique identities, deleting the schedule at an index removes exactly that one. */
  lemma {:induction false} WithoutOidRemovesOne(ss: seq<ScheduleEntity>, index: nat)
    requires UniqueOids(ss) && index < |ss|
    ensures |WithoutOid(ss, ss[index].oid)| == |ss| - 1
    decreases |ss|
  {
    var oid := ss[index].oid;
    assert UniqueOids(ss[1..]) by {
      forall i, j | 0 <= i < j < |ss[1..]| ensures ss[1..][i].oid != ss[1..][j].oid {
        assert ss[1..][i] == ss[i + 1] && ss[1..][j] == ss[j + 1];
      }
    }
    if index == 0 {
      WithoutOidNothing(ss[1..], oid);
    } else {
      assert ss[1..][index - 1] == ss[index];
      WithoutOidRemovesOne(ss[1..], index - 1);
    }
  }

  /** Deleting an identity no schedule has changes nothing. */
  lemma {:induction false} WithoutOidNothing(ss: seq<ScheduleEntity>, oid: nat)
    requires forall i :: 0 <= i < |ss| ==> ss[i].oid != oid
    ensures WithoutOid(ss, oid) == ss
    decreases |ss|
  {
    if ss != [] {
      WithoutOidNothing(ss[1..], oid);
      assert ss == [ss[0]] + ss[1..];
    }
  }

  class TrackerScheduleStore {
    var schedules: seq<ScheduleEntity>
    /** Whether fetches from the context currently succeed. */
    var readable: bool
    /** The identity the next new object gets. */
    var nextOid: nat

    ghost predicate Valid()
      reads this
    {
      UniqueOids(schedules) && forall s :: s in schedules ==> s.oid < nextOid
    }

    constructor (schedules: seq<ScheduleEntity>, readable: bool, nextOid: nat)
      requires UniqueOids(schedules) && forall s :: s in schedules ==> s.oid < nextOid
      ensures Valid()
      ensures this.schedules == schedules && this.readable == readable && this.nextOid == nextOid
    {
      this.schedules := schedules;
      this.readable := readable;
      this.nextOid := nextOid;
    }

    /** `list`: every schedule, or none when the fetch fails. */
    function List(): (r: seq<ScheduleEntity>)
      reads this
      ensures readable ==> r == schedules
      ensures !readable ==> r == []
    {
      if readable then schedules else []
    }

    /** `count`: 0 when the fetch fails; always the length of `list`. */
    function Count(): (n: nat)
      reads this
      ensures n == |List()|
      ensures !readable ==> n == 0
    {
      if readable then |schedules| else 0
    }

    /** `find(at:)`: `list[index]`, which traps outside the list. */
    function FindAt(index: nat): (r: ScheduleEntity)
      reads this
      requires index < Count()
      ensures r in schedules
    {
      List()[index]
    }

    /** `add`: a new schedule with the days, stored last and returned. */
    method Add(days: Option<seq<string>>) returns (e: ScheduleEntity)
      requires Valid()
      modifies this
      ensures Valid()
      ensures e == ScheduleEntity(old(nextOid), days) && e !in old(schedules)
      ensures schedules == old(schedules) + [e]
      ensures readable == old(readable) && nextOid == old(nextOid) + 1
    {
      e := ScheduleEntity(nextOid, days);
      schedules := schedules + [e];
      nextOid := nextOid + 1;
    }

    /** `update(entity, schedule)`. */
    method Update(oid: nat, days: Option<seq<string>>)
      requires Valid()
      modifies this
      ensures Valid()
      ensures schedules == Rescheduled(old(schedules), oid, days)
      ensures readable == old(readable) && nextOid == old(nextOid)
    {
      schedules := Rescheduled(schedules, oid, days);
    }

    /** `update(at:_:)`: updates the schedule `find(at:)` returns. */
    method UpdateAt(index: nat, days: Option<seq<string>>)
      requires Valid()
      requires index < Count()
      modifies this
      ensures Valid()
      ensures schedules == Rescheduled(old(schedules), old(schedules)[index].oid, days)
      ensures schedules[index].selectedDays == days
      ensures readable == old(readable) && nextOid == old(nextOid)
    {
      var s := FindAt(index);
      Update(s.oid, days);
    }

    /** `delete(entity)`. */
    method Delete(oid: nat)
      requires Valid()
      modifies this
      ensures Valid()
      ensures schedules == WithoutOid(old(schedules), oid)
      ensures readable == old(readable) && nextOid == old(nextOid)
    {
      WithoutOidUnique(schedules, oid);
      schedules := WithoutOid(schedules, oid);
    }

    /** `delete(at:)`: deletes the schedule `find(at:)` returns. */
    method DeleteAt(index: nat)
      requires Valid()
      requires index < Count()
      modifies this
      ensures Valid()
      ensures schedules == WithoutOid(old(schedules), old(schedules)[index].oid)
      ensures old(schedules)[index] !in schedules
      ensures |schedules| == |old(schedules)| - 1
      ensures readable == old(readable) && nextOid == old(nextOid)
    {
      var s := FindAt(index);
      WithoutOidRemovesOne(schedules, index);
      Delete(s.oid);
    }
  }
}
