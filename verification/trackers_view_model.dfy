/**
 * The trackers-list view model: it ties the filters store, the tracker,
 * category and schedule stores and the trackers provider together. It
 * builds the cell models, toggles a tracker's completion on the filter
 * day (`updateCounter`) and stores a new tracker with its schedule (`add`).
 */
module TrackersViewModel {
  import opened Base
  import opened Entities
  import opened FiltersModel
  import opened FiltersPredicateBuilder
  import opened TrackersListCell
  import Store = TrackerStore
  import CategoryStore = TrackerCategoryStore
  import ScheduleStore = TrackerScheduleStore
  import FStore = FiltersStore
  import Provider = TrackersListProvider

  /** `SectionInfo`: the title a section header shows. */
  datatype SectionInfo = SectionInfo(title: Option<string>)

  /**
   * `isFutureDate`: `parsed` is the moment the "dd.MM.yy" formatter reads
   * back from the day text (nil when it cannot), `startOfToday` the start
   * of the current day, which the calendar supplies.
   */
  predicate IsFutureDate(parsed: Option<int>, startOfToday: int)
  {
    parsed.Some? && parsed.value > startOfToday
  }

  /** The index of the first record dated `day`, as `first(where:)` finds it. */
  function FirstOn(rs: seq<RecordEntity>, day: string): (r: Option<nat>)
    ensures r.Some? ==> r.value < |rs| && rs[r.value].date == Some(day)
    ensures r.Some? ==> forall j :: 0 <= j < r.value ==> rs[j].date != Some(day)
    ensures r.None? <==> forall x :: x in rs ==> x.date != Some(day)
  {
    if rs == [] then None
    else if rs[0].date == Some(day) then Some(0)
    else
      var rest := FirstOn(rs[1..], day);
      if rest.None? then None else Some(rest.value + 1)
  }

  /** No day has two records. */
  predicate OneRecordPerDay(rs: seq<RecordEntity>)
  {
    forall i, j :: 0 <= i < j < |rs| && rs[i].date.Some? ==> rs[i].date != rs[j].date
  }

  /**
   * `getConfigCell` for the tracker at the path: nil without a filter date
   * or when the tracker lacks a title, colour, emoji or id.
   */
  function ConfigCell(t: TrackerEntity, date: Option<Date>, parsed: Option<int>, startOfToday: int)
    : (r: Option<TrackersListCellModel>)
    ensures r.None? <==> date.None? || t.title.None? || t.color.None? || t.emoji.None? || t.id.None?
    ensures r.Some? ==> r.value.id == t.id.value && r.value.title == t.title.value
    ensures r.Some? ==> r.value.color == t.color.value && r.value.emoji == t.emoji.value
    ensures r.Some? ==> r.value.count == |t.records|
    ensures r.Some? ==> (r.value.completed <==> CompletedOn(t, date.value.formatted))
    ensures r.Some? ==> (r.value.disabled <==> parsed.Some? && parsed.value > startOfToday)
  {
    if date.None? then None
    else
      var dateString := date.value.formatted;
      var todayCompleted := FirstOn(t.records, dateString).Some?;
      if t.title.None? || t.color.None? || t.emoji.None? || t.id.None? then None
      else
        Some(TrackersListCellModel(t.id.value, t.title.value, t.color.value, t.emoji.value,
          |t.records|, todayCompleted, IsFutureDate(parsed, startOfToday)))
  }

  /** The records without the one at index `i`, in the same order: a record object deleted. */
  function RemoveAt(rs: seq<RecordEntity>, i: nat): (r: seq<RecordEntity>)
    requires i < |rs|
    ensures |r| == |rs| - 1
    ensures forall j :: 0 <= j < i ==> r[j] == rs[j]
    ensures forall j :: i < j < |rs| ==> r[j - 1] == rs[j]
  {
    rs[..i] + rs[i + 1..]
  }

  /** A day has a record after the deletion iff a record other than the deleted one has that day. */
  lemma DatedAfterRemove(rs: seq<RecordEntity>, i: nat, d: string)
    requires i < |rs|
    ensures (exists x :: x in RemoveAt(rs, i) && x.date == Some(d))
      <==> (exists j :: 0 <= j < |rs| && j != i && rs[j].date == Some(d))
  {
    var r := RemoveAt(rs, i);
    if exists x :: x in r && x.date == Some(d) {
      var x :| x in r && x.date == Some(d);
      var k :| 0 <= k < |r| && r[k] == x;
      if k < i {
        assert rs[k] == x;
      } else {
        assert rs[k + 1] == x;
      }
    }
    if exists j :: 0 <= j < |rs| && j != i && rs[j].date == Some(d) {
      var j :| 0 <= j < |rs| && j != i && rs[j].date == Some(d);
      if j < i {
        assert r[j] in r;
      } else {
        assert r[j - 1] in r;
      }
    }
  }

  /** The cell shows the tracker: its id, its number of records, and whether it is completed on `day`. */
  predicate CellShows(c: TrackersListCellModel, t: TrackerEntity, day: string)
  {
    t.id == Some(c.id) && c.count == |t.records| && (c.completed <==> CompletedOn(t, day))
  }

  /**
   * What `updateCounter` does to the tracker: without a record dated `day`
   * a new record `oid` with that day is added; otherwise the first record
   * dated `day` is deleted.
   */
  function Toggled(t: TrackerEntity, day: string, oid: nat): TrackerEntity
  {
    var k := FirstOn(t.records, day);
    if k.None? then t.(records := t.records + [RecordEntity(oid, Some(day), t.id)])
    else t.(records := RemoveAt(t.records, k.value))
  }

  /** Toggling changes only the records, and changes their number by one. */
  lemma ToggleCounts(t: TrackerEntity, day: string, oid: nat)
    ensures Toggled(t, day, oid).(records := t.records) == t
    ensures !CompletedOn(t, day) ==> |Toggled(t, day, oid).records| == |t.records| + 1
    ensures CompletedOn(t, day) ==> |Toggled(t, day, oid).records| == |t.records| - 1
  {
    var k := FirstOn(t.records, day);
    if k.Some? {
      assert t.records[k.value] in t.records;
    }
  }

  /** Adding a record dated `day` completes that day and no other. */
  lemma AddCompletes(t: TrackerEntity, day: string, oid: nat, other: string)
    requires !CompletedOn(t, day)
    ensures CompletedOn(Toggled(t, day, oid), day)
    ensures other != day ==> CompletedOn(Toggled(t, day, oid), other) == CompletedOn(t, other)
  {
    var u := Toggled(t, day, oid);
    assert u.records == t.records + [RecordEntity(oid, Some(day), t.id)];
    assert u.records[|t.records|] in u.records;
    if other != day && CompletedOn(u, other) {
      var x :| x in u.records && x.date == Some(other);
      assert x in t.records;
    }
  }

  /** With one record per day, deleting the record dated `day` un-completes that day and no other. */
  lemma RemoveUncompletes(t: TrackerEntity, day: string, oid: nat, other: string)
    requires OneRecordPerDay(t.records) && CompletedOn(t, day)
    ensures !CompletedOn(Toggled(t, day, oid), day)
    ensures other != day ==> CompletedOn(Toggled(t, day, oid), other) == CompletedOn(t, other)
  {
    var rs := t.records;
    var i := FirstOn(rs, day).value;
    assert Toggled(t, day, oid).records == RemoveAt(rs, i);
    DatedAfterRemove(rs, i, day);
    DatedAfterRemove(rs, i, other);
    if other != day && CompletedOn(t, other) {
      var x :| x in rs && x.date == Some(other);
      var j :| 0 <= j < |rs| && rs[j] == x;
      assert j != i;
    }
  }

  /**
   * With at most one record per day, toggling flips the completion of that
   * day and leaves every other day as it was.
   */
  lemma ToggleFlips(t: TrackerEntity, day: string, oid: nat)
    requires OneRecordPerDay(t.records)
    ensures CompletedOn(Toggled(t, day, oid), day) == !CompletedOn(t, day)
    ensures forall other :: other != day ==> CompletedOn(Toggled(t, day, oid), other) == CompletedOn(t, other)
  {
    if CompletedOn(t, day) {
      RemoveUncompletes(t, day, oid, day);
      forall other | other != day
        ensures CompletedOn(Toggled(t, day, oid), other) == CompletedOn(t, other)
      {
        RemoveUncompletes(t, day, oid, other);
      }
    } else {
      AddCompletes(t, day, oid, day);
      forall other | other != day
        ensures CompletedOn(Toggled(t, day, oid), other) == CompletedOn(t, other)
      {
        AddCompletes(t, day, oid, other);
      }
    }
  }

  /** Toggling keeps at most one record per day. */
  lemma ToggleKeepsOneRecordPerDay(t: TrackerEntity, day: string, oid: nat)
    requires OneRecordPerDay(t.records)
    ensures OneRecordPerDay(Toggled(t, day, oid).records)
  {
    var rs := t.records;
    var k := FirstOn(rs, day);
    var us := Toggled(t, day, oid).records;
    if k.None? {
      forall i, j | 0 <= i < j < |us| && us[i].date.Some?
        ensures us[i].date != us[j].date
      {
        if j == |rs| {
          assert us[i] in rs;
        }
      }
    } else {
      var m := k.value;
      forall i, j | 0 <= i < j < |us| && us[i].date.Some?
        ensures us[i].date != us[j].date
      {
        var i' := if i < m then i else i + 1;
        var j' := if j < m then j else j + 1;
        assert us[i] == rs[i'] && us[j] == rs[j'];
      }
    }
  }

  /** Two toggles from a day without a record give back the tracker as it was. */
  lemma ToggleTwiceRestores(t: TrackerEntity, day: string, oid: nat, oid2: nat)
    requires !CompletedOn(t, day)
    ensures Toggled(Toggled(t, day, oid), day, oid2) == t
  {
    var rs := t.records;
    var u := Toggled(t, day, oid);
    assert u.records == rs + [RecordEntity(oid, Some(day), t.id)];
    assert forall j :: 0 <= j < |rs| ==> u.records[j] == rs[j];
    assert forall j :: 0 <= j < |rs| ==> rs[j] in rs;
    assert u.records[|rs|] in u.records;
    var k := FirstOn(u.records, day);
    assert k == Some(|rs|);
    assert RemoveAt(u.records, |rs|) == rs;
  }

  /** The tracker table after `updateCounter` toggled the tracker `oid` on `day`. */
  function WithToggled(ts: seq<TrackerEntity>, oid: nat, day: string, recordOid: nat): (r: seq<TrackerEntity>)
    ensures |r| == |ts|
    ensures forall i :: 0 <= i < |ts| ==> r[i].oid == ts[i].oid
    ensures forall i :: 0 <= i < |ts| && ts[i].oid != oid ==> r[i] == ts[i]
    ensures forall i :: 0 <= i < |ts| && ts[i].oid == oid ==> r[i] == Toggled(ts[i], day, recordOid)
  {
    seq(|ts|, i requires 0 <= i < |ts| => if ts[i].oid == oid then Toggled(ts[i], day, recordOid) else ts[i])
  }

  /** Every tracker of `before` with identity `oid` has the opposite completion on `day` at the same index of `after`. */
  predicate FlipsCompletion(before: seq<TrackerEntity>, after: seq<TrackerEntity>, oid: nat, day: string)
    requires |after| == |before|
  {
    forall i :: 0 <= i < |before| && before[i].oid == oid ==> CompletedOn(after[i], day) == !CompletedOn(before[i], day)
  }

  /** Every tracker has at most one record per day, and every record's identity is below `next`. */
  predicate RecordsWellFormed(ts: seq<TrackerEntity>, next: nat)
  {
    forall t :: t in ts ==> OneRecordPerDay(t.records) && forall x :: x in t.records ==> x.oid < next
  }

  /** Toggling one tracker's records touches no one's identity, and gives the new record a fresh one. */
  lemma {:induction false} ToggleKeepsRecordsWellFormed(t: TrackerEntity, day: string, next: nat)
    requires OneRecordPerDay(t.records) && forall x :: x in t.records ==> x.oid < next
    ensures OneRecordPerDay(Toggled(t, day, next).records)
    ensures forall x :: x in Toggled(t, day, next).records ==> x.oid < next + 1
  {
    ToggleKeepsOneRecordPerDay(t, day, next);
    var rs := t.records;
    var k := FirstOn(rs, day);
    var us := Toggled(t, day, next).records;
    forall x | x in us
      ensures x.oid < next + 1
    {
      var j :| 0 <= j < |us| && us[j] == x;
      if k.None? {
        if j < |rs| {
          assert us[j] == rs[j];
          assert rs[j] in rs;
        }
      } else if j < k.value {
        assert rs[j] in rs;
      } else {
        assert us[j] == rs[j + 1];
        assert rs[j + 1] in rs;
      }
    }
  }

  /** A tracker without records can join a well-formed table. */
  lemma AppendedKeepsRecordsWellFormed(ts: seq<TrackerEntity>, t: TrackerEntity, next: nat)
    requires RecordsWellFormed(ts, next) && t.records == []
    ensures RecordsWellFormed(ts + [t], next)
  {
    forall u | u in ts + [t] ensures OneRecordPerDay(u.records) && forall x :: x in u.records ==> x.oid < next {
      if u !in ts {
        assert u == t;
      }
    }
  }

  /**
   * `updateCounter`'s table change keeps every tracker's identity (so the
   * store stays valid), keeps the records well formed, and flips the
   * completion of the toggled tracker on the day.
   */
  lemma WithToggledKeepsInvariants(ts: seq<TrackerEntity>, oid: nat, day: string, next: nat, nextOid: nat)
    requires Store.UniqueOids(ts) && forall t :: t in ts ==> t.oid < nextOid
    requires RecordsWellFormed(ts, next)
    ensures Store.UniqueOids(WithToggled(ts, oid, day, next))
    ensures forall t :: t in WithToggled(ts, oid, day, next) ==> t.oid < nextOid
    ensures RecordsWellFormed(WithToggled(ts, oid, day, next), next + 1)
    ensures FlipsCompletion(ts, WithToggled(ts, oid, day, next), oid, day)
  {
    var r := WithToggled(ts, oid, day, next);
    forall u | u in r
      ensures u.oid < nextOid
      ensures OneRecordPerDay(u.records) && forall x :: x in u.records ==> x.oid < next + 1
    {
      var i :| 0 <= i < |r| && r[i] == u;
      assert ts[i] in ts;
      if ts[i].oid == oid {
        ToggleKeepsRecordsWellFormed(ts[i], day, next);
      }
    }
    forall i | 0 <= i < |ts| && ts[i].oid == oid
      ensures CompletedOn(r[i], day) == !CompletedOn(ts[i], day)
    {
      assert ts[i] in ts;
      ToggleFlips(ts[i], day, next);
    }
  }

  /** Once toggled and shown again, a cell's completion flips and its count moves by one. */
  lemma CellAfterToggle(t: TrackerEntity, d: Date, oid: nat, parsed: Option<int>, startOfToday: int)
    requires OneRecordPerDay(t.records)
    requires ConfigCell(t, Some(d), parsed, startOfToday).Some?
    ensures var before := ConfigCell(t, Some(d), parsed, startOfToday).value;
      var after := ConfigCell(Toggled(t, d.formatted, oid), Some(d), parsed, startOfToday);
      after.Some? && after.value.completed == !before.completed
      && after.value.count == (if before.completed then before.count - 1 else before.count + 1)
      && after.value.disabled == before.disabled
  {
    ToggleFlips(t, d.formatted, oid);
    ToggleCounts(t, d.formatted, oid);
  }

  /** The schedule `add` stores: nil for no days, else the days' raw values in the same order. */
  function ScheduleDays(days: seq<Weekday>, raw: Weekday -> string): (r: Option<seq<string>>)
    ensures r.None? <==> days == []
    ensures r.Some? ==> |r.value| == |days| && forall i :: 0 <= i < |days| ==> r.value[i] == raw(days[i])
  {
    if |days| > 0 then Some(seq(|days|, i requires 0 <= i < |days| => raw(days[i]))) else None
  }

  /**
   * A tracker added with some days shows on exactly the weekdays whose name
   * is one of the days' raw values; added without days it shows on every day.
   */
  lemma AddedTrackerSchedule(oid: nat, id: Uuid, value: TrackerValue, c: CategoryEntity, soid: nat,
                             days: seq<Weekday>, raw: Weekday -> string, weekday: string)
    ensures var t := Store.NewTracker(oid, id, value, c, ScheduleEntity(soid, ScheduleDays(days, raw)));
      ScheduledOn(t, weekday) <==> days == [] || exists i :: 0 <= i < |days| && raw(days[i]) == weekday
  {
    var s := ScheduleDays(days, raw);
    if s.Some? && weekday in s.value {
      var i :| 0 <= i < |s.value| && s.value[i] == weekday;
      assert raw(days[i]) == weekday;
    }
    if days != [] && exists i :: 0 <= i < |days| && raw(days[i]) == weekday {
      var i :| 0 <= i < |days| && raw(days[i]) == weekday;
      assert s.value[i] == weekday;
    }
  }

  class TrackersViewModel {
    const filtersModel: FStore.FiltersStore
    const trackersModel: Store.TrackerStore
    const categoryModel: CategoryStore.TrackerCategoryStore
    const scheduleModel: ScheduleStore.TrackerScheduleStore
    /** The trackers provider over `trackersModel`; nil when it could not be made. */
    const provider: Provider.TrackerProvider?
    /** The identity the record store gives the next new record. */
    var nextRecordOid: nat
    /** The values passed to `didNumberOfRowsUpdate`, oldest first. */
    var rowCountReports: seq<int>

    ghost predicate Valid()
      reads this, trackersModel, categoryModel, scheduleModel, provider
    {
      trackersModel.Valid() && categoryModel.Valid() && scheduleModel.Valid()
      && (provider != null ==> provider.store == trackersModel && provider.Valid())
      && RecordsWellFormed(trackersModel.trackers, nextRecordOid)
    }

    constructor (filtersModel: FStore.FiltersStore, trackersModel: Store.TrackerStore,
                 categoryModel: CategoryStore.TrackerCategoryStore, scheduleModel: ScheduleStore.TrackerScheduleStore,
                 provider: Provider.TrackerProvider?, nextRecordOid: nat)
      requires trackersModel.Valid() && categoryModel.Valid() && scheduleModel.Valid()
      requires provider != null ==> provider.store == trackersModel && provider.Valid()
      requires provider != null ==> provider.filters == Some(filtersModel.Object())
      requires RecordsWellFormed(trackersModel.trackers, nextRecordOid)
      ensures Valid()
      ensures this.filtersModel == filtersModel && this.trackersModel == trackersModel
      ensures this.categoryModel == categoryModel && this.scheduleModel == scheduleModel
      ensures this.provider == provider && this.nextRecordOid == nextRecordOid && rowCountReports == []
    {
      this.filtersModel := filtersModel;
      this.trackersModel := trackersModel;
      this.categoryModel := categoryModel;
      this.scheduleModel := scheduleModel;
      this.provider := provider;
      this.nextRecordOid := nextRecordOid;
      rowCountReports := [];
    }

    /** `canBeFiltered`: some stored tracker is scheduled on the filter day. */
    function CanBeFiltered(): (r: bool)
      reads this, trackersModel, categoryModel, scheduleModel, provider
      requires Valid()
      ensures r <==> (provider != null && provider.filters.Some? && provider.filters.value.date.Some?
        && trackersModel.readable
        && exists t :: t in trackersModel.trackers && ScheduledOn(t, WeekdayName(provider.filters.value.date.value)))
    {
      if provider == null then false
      else
        var list := provider.ListByDate();
        if |list| > 0 then
          assert list[0] in list;
          true
        else
          assert forall t :: t !in list;
          false
    }

    /** `numberOfSections`: the provider's count, or 0 without one, reported through `didNumberOfRowsUpdate`. */
    method NumberOfSections() returns (n: nat)
      requires Valid()
      modifies this
      ensures Valid()
      ensures n == 0 <==> provider == null || provider.Results() == []
      ensures provider != null ==> n == provider.NumberOfSections()
      ensures rowCountReports == old(rowCountReports) + [n] && nextRecordOid == old(nextRecordOid)
    {
      n := if provider == null then 0 else provider.NumberOfSections();
      rowCountReports := rowCountReports + [n];
    }

    /** `numberOfRowsInSection`: the provider's count, or 0 without one. */
    function NumberOfRowsInSection(section: nat): (n: nat)
      reads this, trackersModel, categoryModel, scheduleModel, provider
      requires Valid()
      requires provider != null && trackersModel.readable ==> section < |provider.Sections()|
      ensures provider == null || !trackersModel.readable ==> n == 0
      ensures provider != null && trackersModel.readable ==> 1 <= n <= |provider.Results()|
    {
      if provider == null then 0 else provider.NumberOfRowsInSection(section)
    }

    /** `getSection`: the section's title, or nil without a provider or a fetch. */
    function GetSection(section: nat): (r: Option<SectionInfo>)
      reads this, trackersModel, categoryModel, scheduleModel, provider
      requires Valid()
      requires provider != null && trackersModel.readable ==> section < |provider.Sections()|
      ensures r.None? <==> provider == null || !trackersModel.readable
      ensures r.Some? ==> r.value.title == provider.Sections()[section].name
    {
      if provider == null then None
      else
        var s := provider.GetSection(section);
        if s.None? then None else Some(SectionInfo(s.value.name))
    }

    /**
     * `getConfigCell(at:)`: the cell model of the tracker at the path, on
     * the filter day; `parsed` and `startOfToday` are as in `IsFutureDate`.
     */
    function GetConfigCell(section: nat, item: nat, parsed: Option<int>, startOfToday: int)
      : (r: Option<TrackersListCellModel>)
      reads this, filtersModel, trackersModel, categoryModel, scheduleModel, provider
      requires Valid()
      requires provider != null ==> section < |provider.Sections()| && item < |provider.Sections()[section].objects|
      ensures provider == null || filtersModel.Date().None? ==> r.None?
      ensures r.Some? ==> exists t :: t in trackersModel.trackers && CellShows(r.value, t, filtersModel.Date().value.formatted)
      ensures provider != null ==> r == ConfigCell(provider.FindAt(section, item), filtersModel.Date(), parsed, startOfToday)
    {
      if provider == null then None
      else
        var t := provider.FindAt(section, item);
        var r := ConfigCell(t, filtersModel.Date(), parsed, startOfToday);
        assert r.Some? ==> t in trackersModel.trackers && CellShows(r.value, t, filtersModel.Date().value.formatted);
        r
    }

    /** `filter`: the provider refetches with the stored filters. */
    method Filter()
      requires Valid()
      modifies provider
      ensures Valid()
      ensures provider != null ==> (provider.filters == Some(filtersModel.Object())
        && provider.didUpdateCount == old(provider.didUpdateCount) + 1)
    {
      if provider != null {
        provider.Filter(filtersModel.Object());
      }
    }

    /**
     * `updateCounter(at:)`: on the filter day, the tracker with the id gets
     * a record when it has none, or loses the one it has. Nothing changes
     * without a filter day, a provider, or a tracker with that id.
     */
    method UpdateCounter(id: Uuid)
      requires Valid()
      modifies this, trackersModel
      ensures Valid()
      ensures filtersModel.Date().None? || provider == null || old(provider.FindById(id)).None? ==>
        trackersModel.trackers == old(trackersModel.trackers) && nextRecordOid == old(nextRecordOid)
      ensures filtersModel.Date().Some? && provider != null && old(provider.FindById(id)).Some? ==>
        trackersModel.trackers == WithToggled(old(trackersModel.trackers), old(provider.FindById(id)).value.oid,
          filtersModel.Date().value.formatted, old(nextRecordOid))
      ensures filtersModel.Date().Some? && provider != null && old(provider.FindById(id)).Some? ==>
        |trackersModel.trackers| == |old(trackersModel.trackers)| &&
        FlipsCompletion(old(trackersModel.trackers), trackersModel.trackers, old(provider.FindById(id)).value.oid,
          filtersModel.Date().value.formatted)
      ensures trackersModel.readable == old(trackersModel.readable) && trackersModel.nextOid == old(trackersModel.nextOid)
      ensures rowCountReports == old(rowCountReports)
    {
      var date := filtersModel.Date();
      if date.None? || provider == null {
        return;
      }
      var day := date.value.formatted;
      var found := provider.FindById(id);
      if found.None? {
        return;
      }
      ToggleRecord(found.value.oid, day);
    }

    /**
     * The record half of `updateCounter(at:)`: the tracker with identity
     * `oid` gets a record on `day` when it has none (the record store adds
     * it with the next record identity), or loses the one it has.
     */
    method ToggleRecord(oid: nat, day: string)
      requires Valid()
      modifies this, trackersModel
      ensures Valid()
      ensures trackersModel.trackers == WithToggled(old(trackersModel.trackers), oid, day, old(nextRecordOid))
      ensures |trackersModel.trackers| == |old(trackersModel.trackers)|
      ensures FlipsCompletion(old(trackersModel.trackers), trackersModel.trackers, oid, day)
      ensures nextRecordOid == old(nextRecordOid) + 1 && rowCountReports == old(rowCountReports)
      ensures trackersModel.readable == old(trackersModel.readable) && trackersModel.nextOid == old(trackersModel.nextOid)
    {
      var ts := trackersModel.trackers;
      WithToggledKeepsInvariants(ts, oid, day, nextRecordOid, trackersModel.nextOid);
      trackersModel.trackers := WithToggled(ts, oid, day, nextRecordOid);
      nextRecordOid := nextRecordOid + 1;
    }

    /**
     * `add(tracker:selectedDays:category:)`: the schedule is stored first;
     * the tracker follows only when a category with that title is stored
     * and there is a provider.
     */
    method Add(value: TrackerValue, selectedDays: seq<Weekday>, categoryTitle: string, newId: Uuid, raw: Weekday -> string)
      requires Valid()
      modifies trackersModel, scheduleModel
      ensures Valid()
      ensures scheduleModel.schedules
        == old(scheduleModel.schedules) + [ScheduleEntity(old(scheduleModel.nextOid), ScheduleDays(selectedDays, raw))]
      ensures categoryModel.FindBy(categoryTitle).None? || provider == null ==>
        trackersModel.trackers == old(trackersModel.trackers)
      ensures categoryModel.FindBy(categoryTitle).Some? && provider != null ==>
        trackersModel.trackers == old(trackersModel.trackers)
          + [Store.NewTracker(old(trackersModel.nextOid), newId, value, categoryModel.FindBy(categoryTitle).value,
               ScheduleEntity(old(scheduleModel.nextOid), ScheduleDays(selectedDays, raw)))]
      ensures trackersModel.readable == old(trackersModel.readable) && scheduleModel.readable == old(scheduleModel.readable)
    {
      var schedule := ScheduleDays(selectedDays, raw);
      var scheduleRecord := scheduleModel.Add(schedule);
      var categoryRecord := categoryModel.FindBy(categoryTitle);
      if categoryRecord.None? || provider == null {
        return;
      }
      AppendedKeepsRecordsWellFormed(trackersModel.trackers,
        Store.NewTracker(trackersModel.nextOid, newId, value, categoryRecord.value, scheduleRecord), nextRecordOid);
      provider.AddRecord(value, categoryRecord.value, scheduleRecord, newId);
    }

    /** `didDateChange`: the date is stored and the provider refetches. */
    method DidDateChange(d: Date, now: int)
      requires Valid()
      modifies filtersModel, provider
      ensures Valid()
      ensures filtersModel.defaults == FStore.AfterSetDate(old(filtersModel.defaults), d, now)
      ensures filtersModel.Date() == Some(d)
      ensures provider != null ==> (provider.filters == Some(filtersModel.Object())
        && provider.didUpdateCount == old(provider.didUpdateCount) + 1)
    {
      filtersModel.SetDate(d, now);
      Filter();
    }
  }
}
