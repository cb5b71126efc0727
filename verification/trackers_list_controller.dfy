/**
 * The first, in-memory trackers list: it shows fixed categories of
 * trackers narrowed to the trackers scheduled on the chosen day, and keeps
 * the completion records in an array that a tap on a counter appends to or
 * removes from.
 */
module TrackersListController {
  import opened Base
  import opened FiltersModel
  import opened TrackersListCell

  /** The list's own tracker: an id, what the cell shows, and the days of its schedule. */
  datatype Tracker = Tracker(id: Uuid, title: string, color: Color, emoji: string, selectedDays: seq<Weekday>)

  /** A category and its trackers, in display order. */
  datatype Category = Category(title: string, trackers: seq<Tracker>)

  /** A completion: the tracker and the "dd.MM.yy" day. */
  datatype Record = Record(trackerId: Uuid, date: string)

  /** `r` is `s` with some elements left out, the rest in the same order. */
  predicate SubsequenceOf<T(==)>(r: seq<T>, s: seq<T>)
    decreases |s|
  {
    if r == [] then true
    else if s == [] then false
    else if r[0] == s[0] then SubsequenceOf(r[1..], s[1..])
    else SubsequenceOf(r, s[1..])
  }

  /**
   * The tracker is shown on the day: one of its days, translated and
   * lower-cased, is the day's lower-cased Russian weekday name.
   */
  predicate ShownOn(t: Tracker, weekdayName: string, translated: Weekday -> string)
  {
    exists i :: 0 <= i < |t.selectedDays| && LowerCased(translated(t.selectedDays[i])) == weekdayName
  }

  /** The trackers shown on the day, in their order. */
  function Shown(ts: seq<Tracker>, weekdayName: string, translated: Weekday -> string): (r: seq<Tracker>)
    ensures forall t :: t in r <==> t in ts && ShownOn(t, weekdayName, translated)
    ensures SubsequenceOf(r, ts)
  {
    if ts == [] then []
    else
      var rest := Shown(ts[1..], weekdayName, translated);
      assert forall t :: t in ts <==> t == ts[0] || t in ts[1..];
      if ShownOn(ts[0], weekdayName, translated) then
        assert ([ts[0]] + rest)[1..] == rest;
        [ts[0]] + rest
      else
        assert rest != [] ==> rest[0] != ts[0] by {
          if rest != [] {
            assert rest[0] in rest;
          }
        }
        rest
  }

  /** The category with only its trackers shown on the day. */
  function Narrowed(c: Category, weekdayName: string, translated: Weekday -> string): Category
  {
    Category(c.title, Shown(c.trackers, weekdayName, translated))
  }

  function NarrowedAll(cs: seq<Category>, weekdayName: string, translated: Weekday -> string): (r: seq<Category>)
    ensures |r| == |cs|
    ensures forall k :: 0 <= k < |cs| ==> r[k] == Narrowed(cs[k], weekdayName, translated)
  {
    if cs == [] then [] else [Narrowed(cs[0], weekdayName, translated)] + NarrowedAll(cs[1..], weekdayName, translated)
  }

  /**
   * `filterCategoriesByDate`'s new categories: every category narrowed to
   * the trackers shown on the day, and those left empty dropped.
   */
  function ByWeekday(cs: seq<Category>, weekdayName: string, translated: Weekday -> string): (r: seq<Category>)
    ensures forall c :: c in r ==> c.trackers != []
    ensures forall c :: c in r <==> c in NarrowedAll(cs, weekdayName, translated) && c.trackers != []
    ensures SubsequenceOf(r, NarrowedAll(cs, weekdayName, translated))
  {
    if cs == [] then []
    else
      var n := Narrowed(cs[0], weekdayName, translated);
      var all := NarrowedAll(cs, weekdayName, translated);
      var rest := ByWeekday(cs[1..], weekdayName, translated);
      assert all == [n] + NarrowedAll(cs[1..], weekdayName, translated);
      assert forall c :: c in all <==> c == n || c in all[1..];
      if n.trackers != [] then
        assert ([n] + rest)[1..] == rest;
        [n] + rest
      else
        assert rest != [] ==> rest[0] != n by {
          if rest != [] {
            assert rest[0] in rest;
          }
        }
        rest
  }

  /** A tracker is listed after the narrowing iff it is in a category and is shown on the day. */
  lemma ByWeekdayListsShownTrackers(cs: seq<Category>, weekdayName: string, translated: Weekday -> string, t: Tracker)
    ensures (exists c :: c in ByWeekday(cs, weekdayName, translated) && t in c.trackers)
      <==> (exists c :: c in cs && t in c.trackers) && ShownOn(t, weekdayName, translated)
  {
    var r := ByWeekday(cs, weekdayName, translated);
    var all := NarrowedAll(cs, weekdayName, translated);
    if exists c :: c in r && t in c.trackers {
      var c :| c in r && t in c.trackers;
      var k :| 0 <= k < |all| && all[k] == c;
      assert t in cs[k].trackers;
    }
    if (exists c :: c in cs && t in c.trackers) && ShownOn(t, weekdayName, translated) {
      var c :| c in cs && t in c.trackers;
      var k :| 0 <= k < |cs| && cs[k] == c;
      assert t in all[k].trackers;
      assert all[k] in all;
    }
  }

  /** The index of the first record of the tracker on the day. */
  function FirstRecord(rs: seq<Record>, id: Uuid, day: string): (r: Option<nat>)
    ensures r.Some? ==> r.value < |rs| && rs[r.value] == Record(id, day)
    ensures r.Some? ==> forall j :: 0 <= j < r.value ==> rs[j] != Record(id, day)
    ensures r.None? <==> Record(id, day) !in rs
  {
    if rs == [] then None
    else if rs[0] == Record(id, day) then Some(0)
    else
      var rest := FirstRecord(rs[1..], id, day);
      assert forall x :: x in rs <==> x == rs[0] || x in rs[1..];
      if rest.None? then None else Some(rest.value + 1)
  }

  /**
   * `didTapCounter`'s new records: the record of the tracker on the day
   * appended when there is none, else the first one removed.
   */
  function Tapped(rs: seq<Record>, id: Uuid, day: string): (r: seq<Record>)
    ensures Record(id, day) !in rs ==> r == rs + [Record(id, day)]
    ensures Record(id, day) in rs ==> |r| == |rs| - 1
    ensures Record(id, day) in rs ==> exists i :: 0 <= i < |rs| && rs[i] == Record(id, day) && r == rs[..i] + rs[i + 1..]
  {
    var k := FirstRecord(rs, id, day);
    if k.None? then rs + [Record(id, day)] else rs[..k.value] + rs[k.value + 1..]
  }

  /** Two taps from a day without a record give back the records as they were. */
  lemma TapTwiceRestores(rs: seq<Record>, id: Uuid, day: string)
    requires Record(id, day) !in rs
    ensures Tapped(Tapped(rs, id, day), id, day) == rs
  {
    var once := rs + [Record(id, day)];
    assert forall j :: 0 <= j < |rs| ==> once[j] == rs[j] && rs[j] in rs;
    var k := FirstRecord(once, id, day);
    assert once[|rs|] == Record(id, day);
    assert k == Some(|rs|);
    assert once[..|rs|] == rs;
  }

  /** The records of the tracker, in order. */
  function RecordsOf(rs: seq<Record>, id: Uuid): (r: seq<Record>)
    ensures |r| <= |rs|
    ensures forall x :: x in r <==> x in rs && x.trackerId == id
  {
    if rs == [] then []
    else
      assert forall x :: x in rs <==> x == rs[0] || x in rs[1..];
      (if rs[0].trackerId == id then [rs[0]] else []) + RecordsOf(rs[1..], id)
  }

  lemma {:induction false} RecordsOfAppend(a: seq<Record>, b: seq<Record>, id: Uuid)
    ensures RecordsOf(a + b, id) == RecordsOf(a, id) + RecordsOf(b, id)
    decreases |a|
  {
    if a != [] {
      assert (a + b)[0] == a[0];
      assert (a + b)[1..] == a[1..] + b;
      RecordsOfAppend(a[1..], b, id);
    } else {
      assert a + b == b;
    }
  }

  /** The tracker's records with the record at `i` deleted: one fewer exactly when that record is the tracker's. */
  lemma RecordsOfRemove(rs: seq<Record>, i: nat, id: Uuid)
    requires i < |rs|
    ensures RecordsOf(rs, id)
      == RecordsOf(rs[..i], id) + RecordsOf([rs[i]], id) + RecordsOf(rs[i + 1..], id)
    ensures RecordsOf(rs[..i] + rs[i + 1..], id) == RecordsOf(rs[..i], id) + RecordsOf(rs[i + 1..], id)
    ensures |RecordsOf([rs[i]], id)| == if rs[i].trackerId == id then 1 else 0
  {
    var a, x, b := rs[..i], [rs[i]], rs[i + 1..];
    assert rs == a + (x + b);
    RecordsOfAppend(a, x + b, id);
    RecordsOfAppend(x, b, id);
    RecordsOfAppend(a, b, id);
    assert x[1..] == [];
  }

  lemma TapAppendCounts(rs: seq<Record>, id: Uuid, day: string, who: Uuid)
    ensures |RecordsOf(rs + [Record(id, day)], who)| == |RecordsOf(rs, who)| + (if who == id then 1 else 0)
    ensures who != id ==> RecordsOf(rs + [Record(id, day)], who) == RecordsOf(rs, who)
  {
    var x := [Record(id, day)];
    RecordsOfAppend(rs, x, who);
    assert x[1..] == [];
    assert RecordsOf(x, who) == if who == id then x else [];
  }

  lemma TapRemoveCounts(rs: seq<Record>, i: nat, who: Uuid)
    requires i < |rs|
    ensures |RecordsOf(rs[..i] + rs[i + 1..], who)| == |RecordsOf(rs, who)| - (if rs[i].trackerId == who then 1 else 0)
  {
    RecordsOfRemove(rs, i, who);
  }

  lemma TapRemoveKeepsOthers(rs: seq<Record>, i: nat, who: Uuid)
    requires i < |rs| && rs[i].trackerId != who
    ensures RecordsOf(rs[..i] + rs[i + 1..], who) == RecordsOf(rs, who)
  {
    var a, b := rs[..i], rs[i + 1..];
    assert rs == a + ([rs[i]] + b);
    assert ([rs[i]] + b)[1..] == b;
    assert RecordsOf([rs[i]] + b, who) == RecordsOf(b, who);
    RecordsOfAppend(a, [rs[i]] + b, who);
    RecordsOfAppend(a, b, who);
  }

  /**
   * A tap changes only the tapped tracker's record count, by one: up when
   * the day had no record, down when it had.
   */
  lemma TapCounts(rs: seq<Record>, id: Uuid, day: string, other: Uuid)
    ensures Record(id, day) !in rs ==> |RecordsOf(Tapped(rs, id, day), id)| == |RecordsOf(rs, id)| + 1
    ensures Record(id, day) in rs ==> |RecordsOf(Tapped(rs, id, day), id)| == |RecordsOf(rs, id)| - 1
    ensures other != id ==> RecordsOf(Tapped(rs, id, day), other) == RecordsOf(rs, other)
  {
    var k := FirstRecord(rs, id, day);
    if k.None? {
      TapAppendCounts(rs, id, day, id);
      TapAppendCounts(rs, id, day, other);
    } else {
      var i := k.value;
      assert Tapped(rs, id, day) == rs[..i] + rs[i + 1..];
      TapRemoveCounts(rs, i, id);
      if other != id {
        TapRemoveKeepsOthers(rs, i, other);
      }
    }
  }

  /** With at most one record per tracker and day, a tap flips that day's completion. */
  lemma TapFlips(rs: seq<Record>, id: Uuid, day: string)
    requires forall i, j :: 0 <= i < j < |rs| ==> rs[i] != rs[j]
    ensures (Record(id, day) in Tapped(rs, id, day)) == (Record(id, day) !in rs)
  {
    var k := FirstRecord(rs, id, day);
    if k.None? {
      assert Tapped(rs, id, day)[|rs|] == Record(id, day);
    } else {
      var i := k.value;
      var r := rs[..i] + rs[i + 1..];
      forall j | 0 <= j < |r|
        ensures r[j] != Record(id, day)
      {
        if j < i {
          assert r[j] == rs[j];
        } else {
          assert r[j] == rs[j + 1];
        }
      }
    }
  }

  /**
   * `configCell`'s model of a tracker on the filter day: the number of its
   * records, and whether one of them is on the day; nil without a day.
   * `parsed` and `startOfToday` are as for the trackers view model.
   */
  function CellModel(t: Tracker, rs: seq<Record>, date: Option<Date>, parsed: Option<int>, startOfToday: int)
    : (r: Option<TrackersListCellModel>)
    ensures r.None? <==> date.None?
    ensures r.Some? ==> r.value.id == t.id && r.value.title == t.title && r.value.color == t.color && r.value.emoji == t.emoji
    ensures r.Some? ==> r.value.count == |RecordsOf(rs, t.id)|
    ensures r.Some? ==> (r.value.completed <==> Record(t.id, date.value.formatted) in rs)
    ensures r.Some? ==> (r.value.disabled <==> parsed.Some? && parsed.value > startOfToday)
  {
    if date.None? then None
    else
      var dateString := date.value.formatted;
      var completed := RecordsOf(rs, t.id);
      var todayCompleted := FirstRecord(completed, t.id, dateString).Some?;
      Some(TrackersListCellModel(t.id, t.title, t.color, t.emoji, |completed|, todayCompleted,
        parsed.Some? && parsed.value > startOfToday))
  }

  class TrackersListViewController {
    /** The fixed categories the list starts from and always narrows again. */
    const mockedCategories: seq<Category>
    var categories: seq<Category>
    var completedTrackers: seq<Record>
    var filters: Filters

    constructor (mockedCategories: seq<Category>, mockedCompletedTrackers: seq<Record>)
      ensures this.mockedCategories == mockedCategories && categories == mockedCategories
      ensures completedTrackers == mockedCompletedTrackers && filters == Filters(None, All)
    {
      this.mockedCategories := mockedCategories;
      categories := mockedCategories;
      completedTrackers := mockedCompletedTrackers;
      filters := MakeFilters(None, None);
    }

    /** `setDate`: a filter on the day with the all type. */
    method SetDate(d: Date)
      modifies this
      ensures filters == Filters(Some(d), All)
      ensures categories == old(categories) && completedTrackers == old(completedTrackers)
    {
      filters := MakeFilters(Some(d), None);
    }

    /**
     * `filterCategoriesByDate`: the fixed categories narrowed to the
     * filter day, whatever was shown before; nothing happens without a day.
     * `translated` gives each day's Russian name.
     */
    method FilterCategoriesByDate(translated: Weekday -> string)
      modifies this
      ensures filters.date.None? ==> categories == old(categories)
      ensures filters.date.Some? ==>
        categories == ByWeekday(mockedCategories, LowerCased(filters.date.value.weekdayRussian), translated)
      ensures filters == old(filters) && completedTrackers == old(completedTrackers)
    {
      if filters.date.None? {
        return;
      }
      var weekdayName := LowerCased(filters.date.value.weekdayRussian);
      categories := ByWeekday(mockedCategories, weekdayName, translated);
    }

    /** `didDateChanged`: the new day is set and the categories narrowed to it. */
    method DidDateChanged(d: Date, translated: Weekday -> string)
      modifies this
      ensures filters == Filters(Some(d), All)
      ensures categories == ByWeekday(mockedCategories, LowerCased(d.weekdayRussian), translated)
      ensures completedTrackers == old(completedTrackers)
    {
      SetDate(d);
      FilterCategoriesByDate(translated);
    }

    /** `configCell(_:for:)`: the model of the tracker at the path, or none without a day. */
    function ConfigCell(section: nat, item: nat, parsed: Option<int>, startOfToday: int): (r: Option<TrackersListCellModel>)
      reads this
      requires section < |categories| && item < |categories[section].trackers|
      ensures r.None? <==> filters.date.None?
      ensures r.Some? ==> r.value.id == categories[section].trackers[item].id
      ensures r.Some? ==> r.value.count == |RecordsOf(completedTrackers, r.value.id)|
      ensures r.Some? ==> (r.value.completed <==> Record(r.value.id, filters.date.value.formatted) in completedTrackers)
    {
      CellModel(categories[section].trackers[item], completedTrackers, filters.date, parsed, startOfToday)
    }

    /** `didTapCounter(id:)`: the tracker's record on the filter day added or removed; nothing without a day. */
    method DidTapCounter(id: Uuid)
      modifies this
      ensures filters.date.None? ==> completedTrackers == old(completedTrackers)
      ensures filters.date.Some? ==> completedTrackers == Tapped(old(completedTrackers), id, filters.date.value.formatted)
      ensures filters == old(filters) && categories == old(categories)
    {
      if filters.date.None? {
        return;
      }
      var dateString := filters.date.value.formatted;
      var indexOfCompleted := FirstRecord(completedTrackers, id, dateString);
      if indexOfCompleted.None? {
        completedTrackers := completedTrackers + [Record(id, dateString)];
        return;
      }
      var i := indexOfCompleted.value;
      completedTrackers := completedTrackers[..i] + completedTrackers[i + 1..];
    }
  }
}
