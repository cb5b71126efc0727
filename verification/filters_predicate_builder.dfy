/**
 * `FiltersPredicateBuilder`: the fetch predicate for the trackers list. With
 * no date there is no predicate; otherwise the completed filter keeps the
 * trackers with a record on the day, the not-completed filter the others,
 * and the all and today filters the trackers scheduled on the day's weekday
 * or not scheduled at all.
 */
module FiltersPredicateBuilder {
  import opened Base
  import opened Entities
  import opened Predicates
  import opened FiltersModel

  /** A record of the tracker is dated `day`. */
  predicate CompletedOn(t: TrackerEntity, day: string)
  {
    exists r :: r in t.records && r.date == Some(day)
  }

  /** The tracker is irregular, or its schedule lists the weekday. */
  predicate ScheduledOn(t: TrackerEntity, weekday: string)
  {
    SelectedDays(t).None? || weekday in SelectedDays(t).value
  }

  /** The lower-cased English weekday name the schedules store. */
  function WeekdayName(d: Date): string
  {
    LowerCased(d.weekdayEnglish)
  }

  /** Which trackers a dated filter keeps, stated on the trackers themselves. */
  predicate Keeps(f: Filters, t: TrackerEntity)
    requires f.date.Some?
  {
    match f.filterType
    case Completed => CompletedOn(t, f.date.value.formatted)
    case NotCompleted => !CompletedOn(t, f.date.value.formatted)
    case _ => ScheduledOn(t, WeekdayName(f.date.value))
  }

  /** `build(filters:)`. */
  function Build(f: Filters): (p: Option<Predicate>)
    ensures p.None? <==> f.date.None?
    ensures p.Some? ==> forall t :: Eval(p.value, t) <==> Keeps(f, t)
  {
    if f.date.None? then None
    else
      var d := f.date.value;
      match f.filterType
      case Completed => Some(AnyRecordDate(d.formatted))
      case NotCompleted => Some(NoRecordsOrNoneDate(d.formatted))
      case _ => Some(Or(SelectedDaysIsNil, SelectedDaysContains(WeekdayName(d))))
  }

  /** A builder and the filters it was made with (nil by default). */
  datatype Builder = Builder(filters: Option<Filters>)

  /** The builder's `predicate`: nil without filters, else what `build` makes of them. */
  function BuilderPredicate(b: Builder): (p: Option<Predicate>)
    ensures b.filters.None? ==> p.None?
    ensures b.filters.Some? ==> p.Some? == b.filters.value.date.Some?
    ensures p.Some? ==> forall t :: Eval(p.value, t) <==> Keeps(b.filters.value, t)
  {
    if b.filters.None? then None else Build(b.filters.value)
  }

  /** On the same day, every tracker passes exactly one of the completed and not-completed filters. */
  lemma CompletedAndNotCompletedPartition(d: Date, t: TrackerEntity)
    ensures Eval(Build(Filters(Some(d), Completed)).value, t) != Eval(Build(Filters(Some(d), NotCompleted)).value, t)
  {
  }

  /** The all and today filters build the same predicate. */
  lemma AllAndTodayAgree(d: Option<Date>)
    ensures Build(Filters(d, All)) == Build(Filters(d, Today))
  {
  }

  /** The completion filters look only at records: trackers with the same records pass alike, whatever their schedules. */
  lemma CompletionFiltersIgnoreSchedule(f: Filters, t: TrackerEntity, u: TrackerEntity)
    requires f.date.Some? && (f.filterType == Completed || f.filterType == NotCompleted)
    requires t.records == u.records
    ensures Eval(Build(f).value, t) == Eval(Build(f).value, u)
  {
  }

  /** The day filters look only at the schedule: a tracker's records never change whether it passes. */
  lemma DayFiltersIgnoreRecords(f: Filters, t: TrackerEntity, u: TrackerEntity)
    requires f.date.Some? && (f.filterType == All || f.filterType == Today)
    requires SelectedDays(t) == SelectedDays(u)
    ensures Eval(Build(f).value, t) == Eval(Build(f).value, u)
  {
  }
}
