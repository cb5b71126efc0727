/**
 * What a fetched-results controller over trackers holds: the fetched objects
 * sorted by category title and then by title, cut into sections at each
 * change of category title (`sectionNameKeyPath: "category.title"`).
 */
module FetchedResults {
  import opened Base
  import opened Entities
  import opened Predicates
  import opened Ordering

  /** The sort descriptors `category.title` ascending, then `title` ascending. */
  function TrackerKey(t: TrackerEntity): Key
  {
    Key(CategoryTitle(t), t.title)
  }

  /** The fetched objects: those the predicate admits, in sort-descriptor order. */
  function FetchTrackers(ts: seq<TrackerEntity>, p: Option<Predicate>): (r: seq<TrackerEntity>)
    ensures multiset(r) == multiset(SelectAll(ts, p))
    ensures SortedBy(r, TrackerKey, false)
  {
    SortBySorted(SelectAll(ts, p), TrackerKey, false);
    SortBy(SelectAll(ts, p), TrackerKey, false)
  }

  datatype Section<T> = Section(name: Option<string>, objects: seq<T>)

  function Flatten<T>(ss: seq<Section<T>>): seq<T>
  {
    if ss == [] then [] else ss[0].objects + Flatten(ss[1..])
  }

  /** Non-empty sections, each of objects with its name, no two neighbours with the same name. */
  predicate Runs<T>(r: seq<Section<T>>, name: T -> Option<string>)
  {
    (forall i :: 0 <= i < |r| ==> r[i].objects != [])
    && (forall i, j :: 0 <= i < |r| && 0 <= j < |r[i].objects| ==> name(r[i].objects[j]) == r[i].name)
    && (forall i :: 0 < i < |r| ==> r[i - 1].name != r[i].name)
  }

  /** The sections: maximal runs of objects with the same section name. */
  function Sectioned<T>(s: seq<T>, name: T -> Option<string>): (r: seq<Section<T>>)
    ensures Flatten(r) == s
    ensures forall i :: 0 <= i < |r| ==> r[i].objects != []
    ensures forall i :: 0 <= i < |r| ==> forall x :: x in r[i].objects ==> name(x) == r[i].name
    ensures forall i :: 0 < i < |r| ==> r[i - 1].name != r[i].name
    ensures r != [] ==> r[0].name == name(s[0])
    ensures r == [] <==> s == []
  {
    if s == [] then []
    else
      var rest := Sectioned(s[1..], name);
      assert Runs(rest, name);
      assert s == [s[0]] + s[1..];
      var r := if rest != [] && rest[0].name == name(s[0]) then JoinFirst(s[0], rest, name) else StartSection(s[0], rest, name);
      assert Runs(r, name);
      r
  }

  /** An object whose name differs from the first section's opens a section of its own. */
  function StartSection<T>(x: T, rest: seq<Section<T>>, name: T -> Option<string>): (r: seq<Section<T>>)
    requires Runs(rest, name)
    requires rest != [] ==> rest[0].name != name(x)
    ensures Runs(r, name) && Flatten(r) == [x] + Flatten(rest)
    ensures r != [] && r[0].name == name(x)
  {
    var r := [Section(name(x), [x])] + rest;
    assert r[1..] == rest;
    r
  }

  /** An object with the first section's name joins that section at its front. */
  function JoinFirst<T>(x: T, rest: seq<Section<T>>, name: T -> Option<string>): (r: seq<Section<T>>)
    requires Runs(rest, name)
    requires rest != [] && rest[0].name == name(x)
    ensures Runs(r, name) && Flatten(r) == [x] + Flatten(rest)
    ensures r != [] && r[0].name == name(x)
  {
    var r := [Section(name(x), [x] + rest[0].objects)] + rest[1..];
    assert Flatten(rest) == rest[0].objects + Flatten(rest[1..]);
    assert r[1..] == rest[1..];
    r
  }

  /** The number of sections: `sections?.count ?? 0`. */
  function SectionCount<T>(s: seq<T>, name: T -> Option<string>): nat
  {
    |Sectioned(s, name)|
  }

  /** Section names rise strictly from each section to the next. */
  predicate Ascending<T>(r: seq<Section<T>>)
  {
    forall i :: 0 < i < |r| ==> OptLe(r[i - 1].name, r[i].name) && r[i - 1].name != r[i].name
  }

  /** When section names never decrease along the objects, they rise strictly from section to section. */
  lemma {:induction false} SectionedAscending<T>(s: seq<T>, name: T -> Option<string>)
    requires forall i :: 0 < i < |s| ==> OptLe(name(s[i - 1]), name(s[i]))
    ensures Ascending(Sectioned(s, name))
    decreases |s|
  {
    if s != [] {
      var rest := Sectioned(s[1..], name);
      SectionedAscending(s[1..], name);
      assert Runs(rest, name);
      assert s == [s[0]] + s[1..];
      if rest != [] && rest[0].name == name(s[0]) {
        JoinFirstAscending(s[0], rest, name);
      } else {
        assert rest != [] ==> rest[0].name == name(s[1]);
        StartSectionAscending(s[0], rest, name);
      }
    }
  }

  lemma JoinFirstAscending<T>(x: T, rest: seq<Section<T>>, name: T -> Option<string>)
    requires Runs(rest, name) && Ascending(rest)
    requires rest != [] && rest[0].name == name(x)
    ensures Ascending(JoinFirst(x, rest, name))
  {
    var r := JoinFirst(x, rest, name);
    assert r[1..] == rest[1..];
    forall i | 0 < i < |r| ensures OptLe(r[i - 1].name, r[i].name) {
      assert r[i - 1].name == rest[i - 1].name && r[i] == rest[i];
    }
  }

  lemma StartSectionAscending<T>(x: T, rest: seq<Section<T>>, name: T -> Option<string>)
    requires Runs(rest, name) && Ascending(rest)
    requires rest != [] ==> rest[0].name != name(x) && OptLe(name(x), rest[0].name)
    ensures Ascending(StartSection(x, rest, name))
  {
    var r := StartSection(x, rest, name);
    assert r[1..] == rest;
    forall i | 0 < i < |r| ensures OptLe(r[i - 1].name, r[i].name) {
      if i > 1 {
        assert r[i - 1] == rest[i - 2] && r[i] == rest[i - 1];
      }
    }
  }

  lemma {:induction false} StrLeReflexive(a: string)
    ensures StrLe(a, a)
    decreases |a|
  {
    if a != [] { StrLeReflexive(a[1..]); }
  }

  /**
   * A tracker fetch sectioned by category title: every tracker sits in the
   * section of its category's title, nothing is lost or added, and the
   * section titles rise strictly.
   */
  lemma TrackerSectionsOrdered(ts: seq<TrackerEntity>, p: Option<Predicate>)
    ensures Flatten(Sectioned(FetchTrackers(ts, p), CategoryTitle)) == FetchTrackers(ts, p)
    ensures Ascending(Sectioned(FetchTrackers(ts, p), CategoryTitle))
  {
    var s := FetchTrackers(ts, p);
    forall i | 0 < i < |s| ensures OptLe(CategoryTitle(s[i - 1]), CategoryTitle(s[i])) {
      assert Precedes(s[i - 1], s[i], TrackerKey, false);
      var c := CategoryTitle(s[i - 1]);
      if c == CategoryTitle(s[i]) && c.Some? {
        StrLeReflexive(c.value);
      }
    }
    SectionedAscending(s, CategoryTitle);
  }

  /** An object of a section is one of the flattened objects. */
  lemma {:induction false} InFlatten<T>(ss: seq<Section<T>>, i: nat, x: T)
    requires i < |ss| && x in ss[i].objects
    ensures x in Flatten(ss)
    decreases i
  {
    if i > 0 {
      InFlatten(ss[1..], i - 1, x);
    }
  }

  /** No section holds more objects than all sections together. */
  lemma {:induction false} FlattenLength<T>(ss: seq<Section<T>>, i: nat)
    requires i < |ss|
    ensures |ss[i].objects| <= |Flatten(ss)|
    decreases i
  {
    if i > 0 {
      FlattenLength(ss[1..], i - 1);
    }
  }

  /** The sort descriptor `title` descending of the category fetch. */
  function CategoryKey(c: CategoryEntity): Key
  {
    Key(c.title, None)
  }

  /** The fetched categories: all of them, titles descending. */
  function FetchCategories(cs: seq<CategoryEntity>): (r: seq<CategoryEntity>)
    ensures multiset(r) == multiset(cs)
    ensures SortedBy(r, CategoryKey, true)
  {
    SortBySorted(cs, CategoryKey, true);
    SortBy(cs, CategoryKey, true)
  }

  /** The sort descriptor `date` descending of the record fetch: the "dd.MM.yy" text, compared as text. */
  function RecordKey(r: RecordEntity): Key
  {
    Key(r.date, None)
  }

  /** The fetched records: all of them, date texts descending. */
  function FetchRecords(rs: seq<RecordEntity>): (r: seq<RecordEntity>)
    ensures multiset(r) == multiset(rs)
    ensures SortedBy(r, RecordKey, true)
  {
    SortBySorted(rs, RecordKey, true);
    SortBy(rs, RecordKey, true)
  }
}
