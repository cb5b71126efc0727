/**
 * How the providers turn a fetched-results controller's delegate calls into
 * one batched update. Between `controllerWillChangeContent` and
 * `controllerDidChangeContent` a provider holds optional sets of index
 * paths: will-change makes them empty sets, each object change inserts its
 * path into the set of its kind (an insertion's new path, an update's or a
 * deletion's old path; other kinds and missing paths are ignored), and
 * did-change, when every set is present, reports them once and makes them
 * nil again. A change that arrives while the sets are nil is dropped.
 */
module ChangeBatch {
  import opened Base

  datatype IndexPath = IndexPath(section: nat, item: nat)

  /** `NSFetchedResultsChangeType`. */
  datatype ChangeType = Insert | Delete | Move | Update

  /** One `controller(_:didChange:at:for:newIndexPath:)` call. */
  datatype ObjectChange = ObjectChange(kind: ChangeType, at: Option<IndexPath>, newAt: Option<IndexPath>)

  /** One `controller(_:didChange:atSectionIndex:for:)` call. */
  datatype SectionChange = SectionChange(kind: ChangeType, index: nat)

  /** The path a change of kind `kind` is kept under: nothing for other kinds. */
  function Recorded(c: ObjectChange, kind: ChangeType): (r: Option<IndexPath>)
    ensures r.Some? ==> c.kind == kind && kind != Move
    ensures r.Some? && kind == Insert ==> c.newAt == r
    ensures r.Some? && kind != Insert ==> c.at == r
  {
    if c.kind != kind || kind == Move then None
    else if kind == Insert then c.newAt else c.at
  }

  /** The section index a section change of kind `kind` is kept under. */
  function RecordedSection(c: SectionChange, kind: ChangeType): Option<nat>
  {
    if c.kind == kind then Some(c.index) else None
  }

  /** `set?.insert(x)` under `if let x`: a nil set and a missing value change nothing. */
  function Track<T>(acc: Option<set<T>>, x: Option<T>): (r: Option<set<T>>)
    ensures r.None? <==> acc.None?
    ensures acc.Some? && x.Some? ==> r.value == acc.value + {x.value}
    ensures x.None? ==> r == acc
  {
    if acc.Some? && x.Some? then Some(acc.value + {x.value}) else acc
  }

  /** `Track` over a run of values, in order. */
  function TrackAll<T>(acc: Option<set<T>>, xs: seq<Option<T>>): Option<set<T>>
    decreases |xs|
  {
    if xs == [] then acc else TrackAll(Track(acc, xs[0]), xs[1..])
  }

  /** The values present in a run. */
  function Present<T>(xs: seq<Option<T>>): set<T>
  {
    set x | x in xs && x.Some? :: x.value
  }

  /**
   * Tracking a run into a present set adds exactly the values present in the
   * run; into a nil set it adds nothing and the set stays nil.
   */
  lemma {:induction false} TrackAllCollects<T>(acc: Option<set<T>>, xs: seq<Option<T>>)
    ensures acc.None? ==> TrackAll(acc, xs) == None
    ensures acc.Some? ==> TrackAll(acc, xs) == Some(acc.value + Present(xs))
    decreases |xs|
  {
    if xs == [] {
      assert Present(xs) == {};
      if acc.Some? { assert acc.value + Present(xs) == acc.value; }
    } else {
      TrackAllCollects(Track(acc, xs[0]), xs[1..]);
      if acc.Some? {
        var head: set<T> := if xs[0].Some? then {xs[0].value} else {};
        assert TrackAll(acc, xs) == TrackAll(Track(acc, xs[0]), xs[1..]);
        if xs[0].Some? {
          assert Track(acc, xs[0]) == Some(acc.value + head);
        } else {
          assert acc.value + head == acc.value;
          assert Track(acc, xs[0]) == Some(acc.value + head);
        }
        assert Present(xs) == head + Present(xs[1..]) by {
          assert xs == [xs[0]] + xs[1..];
          forall v | v in Present(xs) ensures v in head + Present(xs[1..]) {
            var x :| x in xs && x.Some? && x.value == v;
            if x != xs[0] { assert x in xs[1..]; }
          }
          forall v | v in head + Present(xs[1..]) ensures v in Present(xs) {
            if v !in head {
              var x :| x in xs[1..] && x.Some? && x.value == v;
              assert x in xs;
            }
          }
        }
        assert acc.value + head + Present(xs[1..]) == acc.value + Present(xs);
      }
    }
  }

  function Positions(cs: seq<ObjectChange>, kind: ChangeType): (ps: seq<Option<IndexPath>>)
    ensures |ps| == |cs|
    ensures forall i :: 0 <= i < |cs| ==> ps[i] == Recorded(cs[i], kind)
  {
    if cs == [] then [] else [Recorded(cs[0], kind)] + Positions(cs[1..], kind)
  }

  /** The paths a run of object changes leaves in the set of `kind`. */
  function Collected(cs: seq<ObjectChange>, kind: ChangeType): set<IndexPath>
  {
    Present(Positions(cs, kind))
  }

  /** A path is collected for `kind` exactly when some change of that kind names it. */
  lemma CollectedMeans(cs: seq<ObjectChange>, kind: ChangeType, p: IndexPath)
    ensures p in Collected(cs, kind) <==> exists i :: 0 <= i < |cs| && Recorded(cs[i], kind) == Some(p)
  {
    var ps := Positions(cs, kind);
    if p in Collected(cs, kind) {
      var x :| x in ps && x.Some? && x.value == p;
      var i :| 0 <= i < |ps| && ps[i] == x;
      assert Recorded(cs[i], kind) == Some(p);
    }
    if exists i :: 0 <= i < |cs| && Recorded(cs[i], kind) == Some(p) {
      var i :| 0 <= i < |cs| && Recorded(cs[i], kind) == Some(p);
      assert ps[i] in ps;
    }
  }

  /** A batched update of objects: `(inserted, deleted, updated)` index paths. */
  datatype ItemChanges = ItemChanges(inserted: set<IndexPath>, deleted: set<IndexPath>, updated: set<IndexPath>)

  /** The three optional sets a provider keeps between will-change and did-change. */
  datatype ItemSets = ItemSets(
    inserted: Option<set<IndexPath>>,
    deleted: Option<set<IndexPath>>,
    updated: Option<set<IndexPath>>)

  const Idle: ItemSets := ItemSets(None, None, None)

  /** `controllerWillChangeContent`: every set made empty. */
  const Opened: ItemSets := ItemSets(Some({}), Some({}), Some({}))

  /** The sets are all nil or all present. */
  predicate Uniform(s: ItemSets)
  {
    (s.inserted.Some? <==> s.deleted.Some?) && (s.deleted.Some? <==> s.updated.Some?)
  }

  /** An object change: its path goes into the set of its kind. */
  function Note(s: ItemSets, c: ObjectChange): (r: ItemSets)
    ensures Uniform(s) ==> Uniform(r)
  {
    ItemSets(Track(s.inserted, Recorded(c, Insert)), Track(s.deleted, Recorded(c, Delete)), Track(s.updated, Recorded(c, Update)))
  }

  /** `controllerDidChangeContent`: the update reported, if every set is present, and the sets after. */
  function Finish(s: ItemSets): (r: (Option<ItemChanges>, ItemSets))
    ensures Uniform(s) ==> Uniform(r.1)
    ensures r.0.Some? <==> (s.inserted.Some? && s.deleted.Some? && s.updated.Some?)
    ensures r.0.Some? ==> r.0.value == ItemChanges(s.inserted.value, s.deleted.value, s.updated.value) && r.1 == Idle
    ensures r.0.None? ==> r.1 == s
  {
    if s.inserted.Some? && s.deleted.Some? && s.updated.Some? then
      (Some(ItemChanges(s.inserted.value, s.deleted.value, s.updated.value)), Idle)
    else (None, s)
  }

  datatype Event = WillChange | Changed(change: ObjectChange) | DidChange

  /** The updates a run of delegate calls reports, and the sets after it. */
  function Run(s: ItemSets, events: seq<Event>): (seq<ItemChanges>, ItemSets)
    decreases |events|
  {
    if events == [] then ([], s)
    else
      match events[0]
      case WillChange => Run(Opened, events[1..])
      case Changed(c) => Run(Note(s, c), events[1..])
      case DidChange =>
        var (u, s') := Finish(s);
        var (rest, last) := Run(s', events[1..]);
        (if u.Some? then [u.value] + rest else rest, last)
  }

  function Changes(cs: seq<ObjectChange>): (es: seq<Event>)
    ensures |es| == |cs|
    ensures forall i :: 0 <= i < |cs| ==> es[i] == Changed(cs[i])
  {
    if cs == [] then [] else [Changed(cs[0])] + Changes(cs[1..])
  }

  function NoteAll(s: ItemSets, cs: seq<ObjectChange>): ItemSets
    decreases |cs|
  {
    if cs == [] then s else NoteAll(Note(s, cs[0]), cs[1..])
  }

  lemma {:induction false} RunThroughChanges(s: ItemSets, cs: seq<ObjectChange>, tail: seq<Event>)
    ensures Run(s, Changes(cs) + tail) == Run(NoteAll(s, cs), tail)
    decreases |cs|
  {
    if cs == [] {
      assert Changes(cs) + tail == tail;
    } else {
      var events := Changes(cs) + tail;
      assert events[0] == Changed(cs[0]);
      assert events[1..] == Changes(cs[1..]) + tail;
      RunThroughChanges(Note(s, cs[0]), cs[1..], tail);
    }
  }

  lemma {:induction false} NoteAllTracks(s: ItemSets, cs: seq<ObjectChange>)
    ensures NoteAll(s, cs) == ItemSets(
      TrackAll(s.inserted, Positions(cs, Insert)),
      TrackAll(s.deleted, Positions(cs, Delete)),
      TrackAll(s.updated, Positions(cs, Update)))
    decreases |cs|
  {
    if cs != [] {
      NoteAllTracks(Note(s, cs[0]), cs[1..]);
      assert Positions(cs, Insert)[1..] == Positions(cs[1..], Insert);
      assert Positions(cs, Delete)[1..] == Positions(cs[1..], Delete);
      assert Positions(cs, Update)[1..] == Positions(cs[1..], Update);
    }
  }

  /** Noting changes into freshly opened sets collects exactly their paths; into nil sets, nothing. */
  lemma NoteAllCollects(cs: seq<ObjectChange>)
    ensures NoteAll(Opened, cs) == ItemSets(Some(Collected(cs, Insert)), Some(Collected(cs, Delete)), Some(Collected(cs, Update)))
    ensures NoteAll(Idle, cs) == Idle
  {
    NoteAllTracks(Opened, cs);
    NoteAllTracks(Idle, cs);
    TrackAllCollects(Some({}), Positions(cs, Insert));
    TrackAllCollects(Some({}), Positions(cs, Delete));
    TrackAllCollects(Some({}), Positions(cs, Update));
    TrackAllCollects(None, Positions(cs, Insert));
    TrackAllCollects(None, Positions(cs, Delete));
    TrackAllCollects(None, Positions(cs, Update));
    assert {} + Present(Positions(cs, Insert)) == Collected(cs, Insert);
    assert {} + Present(Positions(cs, Delete)) == Collected(cs, Delete);
    assert {} + Present(Positions(cs, Update)) == Collected(cs, Update);
  }

  /**
   * A batch reports once: will-change, any object changes, did-change
   * reports exactly one update holding the new paths of the insertions and
   * the old paths of the deletions and updates, and leaves every set nil.
   */
  lemma BatchReportsOnce(s: ItemSets, cs: seq<ObjectChange>)
    ensures Run(s, [WillChange] + Changes(cs) + [DidChange])
      == ([ItemChanges(Collected(cs, Insert), Collected(cs, Delete), Collected(cs, Update))], Idle)
  {
    var events := [WillChange] + Changes(cs) + [DidChange];
    assert events[0] == WillChange;
    assert events[1..] == Changes(cs) + [DidChange];
    assert Run(s, events) == Run(Opened, Changes(cs) + [DidChange]);
    RunThroughChanges(Opened, cs, [DidChange]);
    NoteAllCollects(cs);
    var u := ItemChanges(Collected(cs, Insert), Collected(cs, Delete), Collected(cs, Update));
    assert Finish(NoteAll(Opened, cs)) == (Some(u), Idle);
    assert [DidChange][1..] == [];
    assert Run(Idle, []) == ([], Idle);
    assert [u] + [] == [u];
  }

  /** Changes that arrive outside a batch are dropped, and the closing did-change reports nothing. */
  lemma ChangesOutsideBatchDropped(cs: seq<ObjectChange>)
    ensures Run(Idle, Changes(cs) + [DidChange]) == ([], Idle)
  {
    RunThroughChanges(Idle, cs, [DidChange]);
    NoteAllCollects(cs);
    assert [DidChange][1..] == [];
  }
}
