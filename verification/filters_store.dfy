/**
 * `FiltersStore`: the trackers-list filter kept in the user defaults under
 * two keys, the filter type's raw value and the selected date.
 */
module FiltersStore {
  import opened Base
  import opened FiltersModel

  /** A value stored in the user defaults: a string, a date, or anything else. */
  datatype Stored = Text(s: string) | Moment(d: Date) | OtherValue

  const FilterTypeKey: string := "selectedFilterType"
  const FilterDateKey: string := "selectedFilterDate"

  /** `type`: the stored raw value read back as a filter type; nil when absent, not a string, or unknown. */
  function TypeIn(m: map<string, Stored>): (r: Option<FilterType>)
    ensures r.Some? ==> FilterTypeKey in m && m[FilterTypeKey] == Text(RawValue(r.value))
    ensures FilterTypeKey !in m ==> r.None?
  {
    if FilterTypeKey in m && m[FilterTypeKey].Text? then FromRawValue(m[FilterTypeKey].s) else None
  }

  /** `date`: the stored date; nil when absent or not a date. */
  function DateIn(m: map<string, Stored>): (r: Option<Date>)
    ensures r.Some? <==> FilterDateKey in m && m[FilterDateKey].Moment?
    ensures r.Some? ==> m[FilterDateKey] == Moment(r.value)
  {
    if FilterDateKey in m && m[FilterDateKey].Moment? then Some(m[FilterDateKey].d) else None
  }

  /** `setType`: the raw value stored under the type key. */
  function AfterSetType(m: map<string, Stored>, t: FilterType): map<string, Stored>
  {
    m[FilterTypeKey := Text(RawValue(t))]
  }

  /**
   * `setDate`: the date stored under the date key; a today filter becomes the
   * all filter when the date is not the current moment.
   */
  function AfterSetDate(m: map<string, Stored>, d: Date, now: int): map<string, Stored>
  {
    var m' := if d.moment != now && TypeIn(m) == Some(Today) then AfterSetType(m, All) else m;
    m'[FilterDateKey := Moment(d)]
  }

  /** `reset`: the type key removed; the date stays. */
  function AfterReset(m: map<string, Stored>): map<string, Stored>
  {
    m - {FilterTypeKey}
  }

  /** A filter type set is read back as set, and the date is untouched. */
  lemma SetTypeRoundTrip(m: map<string, Stored>, t: FilterType)
    ensures TypeIn(AfterSetType(m, t)) == Some(t)
    ensures DateIn(AfterSetType(m, t)) == DateIn(m)
  {
    RawValueRoundTrip(t);
  }

  /**
   * After `setDate` the date reads back as set; the type is kept, except that
   * the today filter gives way to the all filter on any other moment.
   */
  lemma SetDateEffect(m: map<string, Stored>, d: Date, now: int)
    ensures DateIn(AfterSetDate(m, d, now)) == Some(d)
    ensures d.moment != now && TypeIn(m) == Some(Today) ==> TypeIn(AfterSetDate(m, d, now)) == Some(All)
    ensures !(d.moment != now && TypeIn(m) == Some(Today)) ==> TypeIn(AfterSetDate(m, d, now)) == TypeIn(m)
    ensures d.moment != now ==> TypeIn(AfterSetDate(m, d, now)) != Some(Today)
  {
    if d.moment != now && TypeIn(m) == Some(Today) {
      SetTypeRoundTrip(m, All);
    }
  }

  /** After `reset` there is no filter type, so the filter object falls back to the all filter; the date stays. */
  lemma ResetClearsTypeOnly(m: map<string, Stored>)
    ensures TypeIn(AfterReset(m)) == None
    ensures DateIn(AfterReset(m)) == DateIn(m)
    ensures MakeFilters(DateIn(AfterReset(m)), TypeIn(AfterReset(m))) == Filters(DateIn(m), All)
  {
  }

  class FiltersStore {
    /** The user defaults. */
    var defaults: map<string, Stored>

    constructor (defaults: map<string, Stored>)
      ensures this.defaults == defaults
    {
      this.defaults := defaults;
    }

    function Type(): Option<FilterType>
      reads this
    {
      TypeIn(defaults)
    }

    function Date(): Option<Date>
      reads this
    {
      DateIn(defaults)
    }

    /** `object`: the stored date and type as a filter; a missing type is the all filter. */
    function Object(): (f: Filters)
      reads this
      ensures f.date == DateIn(defaults)
      ensures f.filterType == if TypeIn(defaults).Some? then TypeIn(defaults).value else All
    {
      MakeFilters(Date(), Type())
    }

    method SetType(t: FilterType)
      modifies this
      ensures defaults == AfterSetType(old(defaults), t)
      ensures Type() == Some(t) && Date() == old(Date())
    {
      SetTypeRoundTrip(defaults, t);
      defaults := AfterSetType(defaults, t);
    }

    /** `setDate`; `now` is the current moment, which the clock supplies. */
    method SetDate(d: Date, now: int)
      modifies this
      ensures defaults == AfterSetDate(old(defaults), d, now)
      ensures Date() == Some(d)
      ensures d.moment != now ==> Type() != Some(Today)
    {
      SetDateEffect(defaults, d, now);
      if d.moment != now && Type() == Some(Today) {
        SetType(All);
      }
      defaults := defaults[FilterDateKey := Moment(d)];
    }

    method Reset()
      modifies this
      ensures defaults == AfterReset(old(defaults))
      ensures Type() == None && Date() == old(Date())
    {
      ResetClearsTypeOnly(defaults);
      defaults := defaults - {FilterTypeKey};
    }
  }
}
