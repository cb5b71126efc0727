/**
 * The completion-records provider: a fetched-results controller over the
 * record table, date text descending, one section; new records are tied to
 * the tracker the trackers provider finds, and the delegate receives each
 * batch as two index-path sets (insertions and deletions only).
 */
module RecordProvider {
  import opened Base
  import opened Entities
  import opened Ordering
  import opened FetchedResults
  import opened ChangeBatch

  /** `insertedIndexes` and `deletedIndexes`. */
  datatype RecordSets = RecordSets(inserted: Option<set<IndexPath>>, deleted: Option<set<IndexPath>>)

  const RecordsIdle := RecordSets(None, None)
  const RecordsOpened := RecordSets(Some({}), Some({}))

  /** `RecordStoreUpdate`. */
  datatype RecordChanges = RecordChanges(inserted: set<IndexPath>, deleted: set<IndexPath>)

  /** An object change: insertions and deletions are kept, updates and moves are dropped. */
  function NoteRecord(s: RecordSets, c: ObjectChange): (r: RecordSets)
    ensures c.kind == Update || c.kind == Move ==> r == s
    ensures (s.inserted.None? ==> r.inserted.None?) && (s.deleted.None? ==> r.deleted.None?)
  {
    RecordSets(Track(s.inserted, Recorded(c, Insert)), Track(s.deleted, Recorded(c, Delete)))
  }

  function NoteAllRecords(s: RecordSets, cs: seq<ObjectChange>): RecordSets
    decreases |cs|
  {
    if cs == [] then s else NoteAllRecords(NoteRecord(s, cs[0]), cs[1..])
  }

  /** `controllerDidChangeContent`: the update reported, when both sets are present, and the sets after. */
  function FinishRecords(s: RecordSets): (r: (Option<RecordChanges>, RecordSets))
    ensures r.0.Some? <==> s.inserted.Some? && s.deleted.Some?
    ensures r.0.Some? ==> r.0.value == RecordChanges(s.inserted.value, s.deleted.value) && r.1 == RecordsIdle
    ensures r.0.None? ==> r.1 == s
  {
    if s.inserted.Some? && s.deleted.Some? then (Some(RecordChanges(s.inserted.value, s.deleted.value)), RecordsIdle)
    else (None, s)
  }

  /** The two record sets follow the insert and delete sets of the three-set providers, step for step. */
  lemma {:induction false} NoteAllRecordsFollowsNoteAll(s: ItemSets, cs: seq<ObjectChange>)
    ensures NoteAllRecords(RecordSets(s.inserted, s.deleted), cs)
      == RecordSets(NoteAll(s, cs).inserted, NoteAll(s, cs).deleted)
    decreases |cs|
  {
    if cs != [] {
      NoteAllRecordsFollowsNoteAll(Note(s, cs[0]), cs[1..]);
    }
  }

  /**
   * A batch of changes noted after will-change reports exactly the new paths
   * of the insertions and the old paths of the deletions.
   */
  lemma RecordBatchCollects(cs: seq<ObjectChange>)
    ensures FinishRecords(NoteAllRecords(RecordsOpened, cs))
      == (Some(RecordChanges(Collected(cs, Insert), Collected(cs, Delete))), RecordsIdle)
    ensures FinishRecords(NoteAllRecords(RecordsIdle, cs)) == (None, RecordsIdle)
  {
    NoteAllRecordsFollowsNoteAll(Opened, cs);
    NoteAllRecordsFollowsNoteAll(Idle, cs);
    NoteAllCollects(cs);
  }

  /** The records after `delete` of the object `oid`, in the same order. */
  function WithoutRecord(rs: seq<RecordEntity>, oid: nat): (r: seq<RecordEntity>)
    ensures |r| <= |rs|
    ensures forall x :: x in r <==> x in rs && x.oid != oid
  {
    if rs == [] then []
    else if rs[0].oid == oid then WithoutRecord(rs[1..], oid)
    else [rs[0]] + WithoutRecord(rs[1..], oid)
  }

  class RecordProvider {
    /** The record table (the record store's objects). */
    var records: seq<RecordEntity>
    /** Whether fetches from the context currently succeed. */
    var readable: bool
    /** The identity the next new object gets. */
    var nextOid: nat
    var sets: RecordSets
    /** The updates handed to the delegate's `didUpdate`, oldest first. */
    var updates: seq<RecordChanges>

    ghost predicate Valid()
      reads this
    {
      (sets.inserted.Some? <==> sets.deleted.Some?) && forall r :: r in records ==> r.oid < nextOid
    }

    constructor (records: seq<RecordEntity>, readable: bool, nextOid: nat)
      requires forall r :: r in records ==> r.oid < nextOid
      ensures Valid()
      ensures this.records == records && this.readable == readable && this.nextOid == nextOid
      ensures sets == RecordsIdle && updates == []
    {
      this.records := records;
      this.readable := readable;
      this.nextOid := nextOid;
      sets := RecordsIdle;
      updates := [];
    }

    /** The fetched objects: every record, date text descending; none when the fetch fails. */
    function Fetched(): (r: seq<RecordEntity>)
      reads this
      ensures readable ==> multiset(r) == multiset(records)
      ensures !readable ==> r == []
      ensures SortedBy(r, RecordKey, true)
    {
      FetchRecords(if readable then records else [])
    }

    /** `numberOfSections`: the one unnamed section, or none when the fetch failed. */
    function NumberOfSections(): (n: nat)
      reads this
      ensures n == if readable then 1 else 0
    {
      if readable then 1 else 0
    }

    /** `numberOfRowsInSection`: every record is a row. Asking for another section traps. */
    function NumberOfRowsInSection(section: int): (n: nat)
      reads this
      requires readable ==> section == 0
      ensures n == if readable then |records| else 0
    {
      assert |multiset(Fetched())| == |Fetched()|;
      |Fetched()|
    }

    /** `object(at:)`, which traps outside the fetched objects. */
    function Object(p: IndexPath): (r: RecordEntity)
      reads this
      requires p.section == 0 && p.item < |Fetched()|
      ensures r in records
    {
      assert Fetched()[p.item] in multiset(Fetched());
      Fetched()[p.item]
    }

    /**
     * `addRecord(by:_:)`. `tracker` is what the trackers provider's `find(by:)`
     * returned for `id`; without a tracker nothing is stored.
     */
    method AddRecord(id: Uuid, date: string, tracker: Option<TrackerEntity>)
      requires Valid()
      requires tracker.Some? ==> tracker.value.id == Some(id)
      modifies this
      ensures Valid()
      ensures tracker.None? ==> records == old(records) && nextOid == old(nextOid)
      ensures tracker.Some? ==> records == old(records) + [RecordEntity(old(nextOid), Some(date), Some(id))]
      ensures tracker.Some? ==> nextOid == old(nextOid) + 1
      ensures readable == old(readable) && sets == old(sets) && updates == old(updates)
    {
      if tracker.None? {
        return;
      }
      records := records + [RecordEntity(nextOid, Some(date), tracker.value.id)];
      nextOid := nextOid + 1;
    }

    /** `deleteRecord`: the record object `oid` is deleted. */
    method DeleteRecord(oid: nat)
      requires Valid()
      modifies this
      ensures Valid()
      ensures records == WithoutRecord(old(records), oid)
      ensures readable == old(readable) && nextOid == old(nextOid) && sets == old(sets) && updates == old(updates)
    {
      records := WithoutRecord(records, oid);
    }

    /** `controllerWillChangeContent`: both sets start empty. */
    method ControllerWillChangeContent()
      requires Valid()
      modifies this
      ensures Valid()
      ensures sets == RecordsOpened
      ensures records == old(records) && readable == old(readable) && nextOid == old(nextOid) && updates == old(updates)
    {
      sets := RecordsOpened;
    }

    /** `controller(_:didChange:at:for:newIndexPath:)`. */
    method ControllerDidChange(c: ObjectChange)
      requires Valid()
      modifies this
      ensures Valid()
      ensures sets == NoteRecord(old(sets), c)
      ensures records == old(records) && readable == old(readable) && nextOid == old(nextOid) && updates == old(updates)
    {
      sets := NoteRecord(sets, c);
    }

    /** `controllerDidChangeContent`: the collected sets go to the delegate, once, and are cleared. */
    method ControllerDidChangeContent()
      requires Valid()
      modifies this
      ensures Valid()
      ensures FinishRecords(old(sets)).0.Some? ==> updates == old(updates) + [FinishRecords(old(sets)).0.value]
      ensures FinishRecords(old(sets)).0.None? ==> updates == old(updates)
      ensures sets == FinishRecords(old(sets)).1
      ensures records == old(records) && readable == old(readable) && nextOid == old(nextOid)
    {
      var (u, s) := FinishRecords(sets);
      if u.Some? {
        updates := updates + [u.value];
      }
      sets := s;
    }
  }
}
