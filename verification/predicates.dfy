/**
 * The fetch predicates the app builds, as a small syntax with its meaning on
 * a tracker: the stand-in for `NSPredicate` evaluated by CoreData. A key path
 * through a missing relationship reads as nil, and `CONTAINS` on the stored
 * list of day names is membership in that list.
 */
module Predicates {
  import opened Base
  import opened Entities

  datatype Predicate =
    | AnyRecordDate(date: string)          // "ANY records.date == %@"
    | NoRecordsOrNoneDate(date: string)    // "records.@count == 0 OR NONE records.date == %@"
    | SelectedDaysContains(day: string)    // "schedule.selectedDays CONTAINS %@"
    | SelectedDaysIsNil                    // "schedule.selectedDays == nil"
    | Or(left: Predicate, right: Predicate)

  predicate Eval(p: Predicate, t: TrackerEntity)
  {
    match p
    case AnyRecordDate(d) => exists r :: r in t.records && r.date == Some(d)
    case NoRecordsOrNoneDate(d) => |t.records| == 0 || forall r :: r in t.records ==> r.date != Some(d)
    case SelectedDaysContains(day) => SelectedDays(t).Some? && day in SelectedDays(t).value
    case SelectedDaysIsNil => SelectedDays(t).None?
    case Or(l, r) => Eval(l, t) || Eval(r, t)
  }

  /** The objects a fetch with predicate `p` returns, in store order. */
  function Select(ts: seq<TrackerEntity>, p: Predicate): (r: seq<TrackerEntity>)
    ensures |r| <= |ts|
    ensures forall t :: t in r <==> t in ts && Eval(p, t)
  {
    if ts == [] then []
    else if Eval(p, ts[0]) then [ts[0]] + Select(ts[1..], p)
    else Select(ts[1..], p)
  }

  /** A fetch whose predicate may be nil: nil fetches everything. */
  function SelectAll(ts: seq<TrackerEntity>, p: Option<Predicate>): (r: seq<TrackerEntity>)
    ensures p.None? ==> r == ts
    ensures p.Some? ==> forall t :: t in r <==> t in ts && Eval(p.value, t)
  {
    if p.None? then ts else Select(ts, p.value)
  }
}
