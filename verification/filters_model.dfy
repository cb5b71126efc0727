/** The filter kinds of the trackers list and the filter value the list is fetched with. */
module FiltersModel {
  import opened Base

  /** `FilterType`: its raw values are the case names. */
  datatype FilterType = All | Today | Completed | NotCompleted

  /** `FilterType.allCases`, in declaration order. */
  const AllFilterTypes: seq<FilterType> := [All, Today, Completed, NotCompleted]

  function RawValue(t: FilterType): string
  {
    match t
    case All => "all"
    case Today => "today"
    case Completed => "completed"
    case NotCompleted => "notCompleted"
  }

  /** `FilterType(rawValue:)`: nil for any string that is not a raw value. */
  function FromRawValue(s: string): (r: Option<FilterType>)
    ensures r.Some? ==> RawValue(r.value) == s
    ensures r.None? ==> forall t :: RawValue(t) != s
  {
    if s == "all" then Some(All)
    else if s == "today" then Some(Today)
    else if s == "completed" then Some(Completed)
    else if s == "notCompleted" then Some(NotCompleted)
    else None
  }

  /** Storing a filter type by its raw value and reading it back gives the same type. */
  lemma RawValueRoundTrip(t: FilterType)
    ensures FromRawValue(RawValue(t)) == Some(t)
  {
  }

  /** The Russian menu title of a filter. */
  function Translated(t: FilterType): (r: string)
    ensures |r| > 0
  {
    match t
    case All => "Все трекеры"
    case Today => "Трекеры на сегодня"
    case Completed => "Завершенные"
    case NotCompleted => "Не завершенные"
  }

  lemma AllFilterTypesListsEachOnce()
    ensures |AllFilterTypes| == 4
    ensures forall t: FilterType :: t in AllFilterTypes
    ensures forall i, j :: 0 <= i < j < |AllFilterTypes| ==> AllFilterTypes[i] != AllFilterTypes[j]
    ensures forall i, j :: 0 <= i < j < |AllFilterTypes| ==> Translated(AllFilterTypes[i]) != Translated(AllFilterTypes[j])
  {
    forall t: FilterType ensures t in AllFilterTypes {
      match t
      case All => assert AllFilterTypes[0] == t;
      case Today => assert AllFilterTypes[1] == t;
      case Completed => assert AllFilterTypes[2] == t;
      case NotCompleted => assert AllFilterTypes[3] == t;
    }
  }

  /** `Filters`: the day shown (if any) and the filter kind. */
  datatype Filters = Filters(date: Option<Date>, filterType: FilterType)

  /** `Filters.init(date:type:)`: a missing type becomes `.all`, the date is kept as given. */
  function MakeFilters(date: Option<Date>, filterType: Option<FilterType>): (f: Filters)
    ensures f.date == date
    ensures filterType.None? ==> f.filterType == All
    ensures filterType.Some? ==> f.filterType == filterType.value
  {
    Filters(date, if filterType.Some? then filterType.value else All)
  }
}
