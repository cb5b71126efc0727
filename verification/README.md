# Habit tracker core, modelled in Dafny

This project models the logic of an iOS habit tracker ("Tracker"). Users
keep habits (trackers on chosen weekdays) and irregular events. They group
them into categories and mark a tracker completed on a day.

The app was rewritten several times, and each rewrite kept its own copy of
the logic. Each Swift file is therefore modelled on its own, as one Dafny
module:

- **Filters.** The filter value and its four kinds, and the fetch predicate
  each kind builds. The user-defaults store of the current filter, and the
  filter menu's rows.
- **Providers.** Two trackers providers: fetch, ordering, sections, and
  reload or update notifications. Category, schedule and record providers,
  and the batching of fetched-results changes that four of them share.
- **Stores.** The tracker, category and schedule tables of the database.
  Category titles stay distinct, and stored objects are updated and deleted
  by index.
- **View models.** Completion toggling with its cell counters. The
  in-memory first version of the list with its weekday filtering. The
  distinct-tracker statistic.
- **Forms and screens.** Category selection; the weekday switches and their
  sorted result; the event settings rows; the required-fields rule; and the
  validated text field, which notifies only when its error state changes.
- **Pluralization.** Russian plural-form selection, in two identical copies.

How the foreign parts become values:

- **CoreData.** Each table is a sequence of entity values with an identity
  `oid`. A store's `readable` flag models a failing fetch.
- **Fetched-results controllers.** They are functions: filter by an
  explicit predicate, sort with an insertion sort that stands in for the
  sort descriptors, cut into sections.
- **Delegate callbacks and bindings.** Each becomes a log of the values it
  was called with, or a counter.
- **Dates.** A date is a value holding its instant and the texts the app's
  date formatters print for it: "dd.MM.yy", and the English and Russian
  weekday names.
- **Parameters.** The current instant, the start of today, and a new
  object's UUID are parameters.
- **Weekday names.** `rawValue`, `translated` and `shortTranslated` of a
  weekday are passed in as functions. The `Weekday` enum file is not part of
  this model.

Shared modules:

- `Base`: optionals, ids, dates, weekdays, lower-casing and decimal text.
- `Entities`: the database entities.
- `Predicates`: the NSPredicate stand-in.
- `Ordering` and `FetchedResults`: sorting and sectioning.
- `ChangeBatch`: the index-path set accumulator.
- `SettingsItems`: the table row model.

Where the code and the design description differ, the model follows the
code. In particular, `getPredicate` in `Tracker/Providers/TrackerProvider.swift`
ignores the filter type: every type fetches the trackers scheduled on the
weekday. This is stated by `TrackerProvider.GetPredicateIsAllFilter`.

## Model

| member | source | states |
|---|---|---|
| Base.Position | Tracker/Schedule/ScheduleViewController.swift:45-50 | every day has a position in `Weekday.allCases`, and the day at that position is the day itself |
| Base.AllWeekdaysListsEachDayOnce | Tracker/Schedule/ScheduleTableProvider.swift:22-27 | `allCases` has seven entries, every day among them, none repeated |
| Base.LowerCased | Tracker/TrackersList/Model/FiltersPredicateBuilder.swift:47 | lower-casing keeps the length and maps each character by the letter rule, leaving non-letters unchanged |
| Base.LowerCasedIdempotent | Tracker/TrackersList/Model/FiltersPredicateBuilder.swift:47 | lower-casing twice is lower-casing once |
| Base.NatToString | Tracker/StatisticsList/StatisticsViewModel.swift:43-47 | a count prints as a non-empty run of decimal digits |
| Base.IntToString | Tracker/TrackersList/TrackersListCell.swift:124-130 | an `Int` prints as its decimal digits, with a minus sign before a negative number |
| Base.NatToStringRoundTrip | Tracker/StatisticsList/StatisticsViewModel.swift:43-47 | the printed digits of a count read back as that count |
| Entities.FindById | Tracker/TrackersList/Model/TrackerStore.swift:59-61 | the first tracker with the id; nothing is found exactly when no tracker has it |
| Entities.FirstWithId | Tracker/TrackersList/Model/TrackerStore.swift:59-61 | the index found holds the id and no earlier index does; none iff the id is absent |
| Predicates.Select | Tracker/TrackersList/Model/TrackerStore.swift:49-57 | a fetch with a predicate returns exactly the stored trackers the predicate admits |
| Predicates.SelectAll | Tracker/TrackersList/Model/TrackerProvider.swift:29-32 | a nil predicate fetches everything; otherwise exactly the admitted trackers |
| Ordering.SortBy | Tracker/TrackersList/Model/TrackerProvider.swift:36-39 | sorting is a permutation of the fetched objects |
| Ordering.SortBySorted | Tracker/TrackersList/Model/TrackerProvider.swift:36-39 | sorting leaves the objects ordered by the sort descriptors |
| Ordering.InsertBy | Tracker/TrackersList/Model/TrackerProvider.swift:36-39 | inserting adds exactly the one object to the list |
| Ordering.InsertBySorted | Tracker/TrackersList/Model/TrackerProvider.swift:36-39 | inserting into a sorted list keeps it sorted |
| Ordering.KeyLeTotal | Tracker/TrackersList/Model/TrackerProvider.swift:36-39 | any two sort keys are comparable |
| Ordering.KeyLeTrans | Tracker/TrackersList/Model/TrackerProvider.swift:36-39 | the sort-key order is transitive |
| Ordering.StrLeTrans | Tracker/TrackersList/Model/TrackerProvider.swift:36-39 | text comparison is transitive |
| Ordering.StrLeAntisymmetric | Tracker/TrackersList/Model/TrackerProvider.swift:36-39 | two texts ordered both ways are equal |
| FetchedResults.FetchTrackers | Tracker/TrackersList/Model/TrackerProvider.swift:29-44 | the fetched trackers are a permutation of those the predicate admits, sorted by category title then title |
| FetchedResults.Sectioned | Tracker/TrackersList/Model/TrackerProvider.swift:44 | sections flatten back to the objects, are non-empty, share one category title each, and neighbours differ in title |
| FetchedResults.SectionedAscending | Tracker/TrackersList/Model/TrackerProvider.swift:36-44 | on objects sorted by section name, section names rise strictly |
| FetchedResults.TrackerSectionsOrdered | Tracker/TrackersList/Model/TrackerProvider.swift:36-45 | a tracker fetch loses nothing when sectioned, and section titles rise strictly |
| FetchedResults.FetchCategories | Tracker/Providers/CategoryProvider.swift:38-45 | the fetched categories are all stored categories, titles descending |
| FetchedResults.FetchRecords | Tracker/TrackersList/ViewModel/RecordProvider.swift:36-38 | the fetched records are all records, ordered by date text descending |
| ChangeBatch.Recorded | Tracker/Providers/CategoryProvider.swift:130-145 | a change is kept only under its own kind: an insertion at its new path, an update or deletion at its old path, a move never |
| ChangeBatch.Track | Tracker/Providers/CategoryProvider.swift:130-145 | inserting into a nil set changes nothing; into a present set it adds the path |
| ChangeBatch.Note | Tracker/Providers/CategoryProvider.swift:123-145 | noting a change keeps the three sets all present or all nil |
| ChangeBatch.TrackAllCollects | Tracker/Providers/CategoryProvider.swift:130-145 | a run of changes adds exactly the paths present to an open set and leaves a nil set nil |
| ChangeBatch.CollectedMeans | Tracker/Providers/CategoryProvider.swift:130-145 | a path is collected for a kind iff some change of that kind names it |
| ChangeBatch.Finish | Tracker/Providers/CategoryProvider.swift:107-121 | did-change reports the three sets iff all are present, then clears them; otherwise nothing changes |
| ChangeBatch.NoteAllCollects | Tracker/Providers/CategoryProvider.swift:101-145 | changes noted after will-change collect exactly their paths; without will-change, nothing |
| ChangeBatch.NoteAllTracks | Tracker/Providers/CategoryProvider.swift:123-145 | a run of changes tracks, in each set, exactly the positions that change kind records |
| ChangeBatch.RunThroughChanges | Tracker/Providers/CategoryProvider.swift:123-145 | a run of object changes acts as noting them one by one |
| ChangeBatch.BatchReportsOnce | Tracker/Providers/CategoryProvider.swift:101-145 | will-change, changes, did-change report exactly one update with the collected paths and leave every set nil |
| ChangeBatch.ChangesOutsideBatchDropped | Tracker/Providers/CategoryProvider.swift:107-112 | changes without a will-change are dropped and the closing did-change reports nothing |
| FiltersModel.FromRawValue | Tracker/Models/FiltersModel.swift:3-7 | a type read from text has that raw value; unknown text reads as nil |
| FiltersModel.RawValueRoundTrip | Tracker/Models/FiltersModel.swift:3 | `FilterType(rawValue: t.rawValue) == t` for every case |
| FiltersModel.Translated | Tracker/Models/FiltersModel.swift:9-20 | every filter has a non-empty menu title |
| FiltersModel.AllFilterTypesListsEachOnce | Tracker/Models/FiltersModel.swift:3-20 | four cases, each once, with pairwise distinct titles |
| FiltersModel.MakeFilters | Tracker/Models/FiltersModel.swift:23-30 | the date is kept as given; a nil type becomes `.all`, any other type is kept |
| FiltersPredicateBuilder.Build | Tracker/TrackersList/Model/FiltersPredicateBuilder.swift:28-58 | no predicate without a date; otherwise a tracker passes iff completed on the day (completed), not completed (notCompleted), or irregular or scheduled on the weekday (all, today) |
| FiltersPredicateBuilder.BuilderPredicate | Tracker/TrackersList/Model/FiltersPredicateBuilder.swift:19-26 | nil without filters, otherwise what `build` makes of them |
| FiltersPredicateBuilder.CompletedAndNotCompletedPartition | Tracker/TrackersList/Model/FiltersPredicateBuilder.swift:35-45 | on one day each tracker passes exactly one of completed and notCompleted |
| FiltersPredicateBuilder.AllAndTodayAgree | Tracker/TrackersList/Model/FiltersPredicateBuilder.swift:46 | all and today build the same predicate |
| FiltersPredicateBuilder.CompletionFiltersIgnoreSchedule | Tracker/TrackersList/Model/FiltersPredicateBuilder.swift:34-45 | the completion filters judge trackers with equal records alike, whatever their schedules |
| FiltersPredicateBuilder.DayFiltersIgnoreRecords | Tracker/TrackersList/Model/FiltersPredicateBuilder.swift:46-56 | the day filters judge trackers with equal schedules alike, whatever their records |
| FiltersStore.TypeIn | Tracker/Filters/FiltersStore.swift:17-20 | a type read back is the one whose raw value is stored; nil when nothing is stored |
| FiltersStore.DateIn | Tracker/Filters/FiltersStore.swift:22-24 | a date is read iff a date is stored under the date key, and it is that date |
| FiltersStore.SetTypeRoundTrip | Tracker/Filters/FiltersStore.swift:17-20 | after `setType(t)` the type reads `t` and the date is unchanged |
| FiltersStore.SetDateEffect | Tracker/Filters/FiltersStore.swift:35-41 | after `setDate(d)` the date reads `d`; today on another moment becomes all; any other type is kept |
| FiltersStore.ResetClearsTypeOnly | Tracker/Filters/FiltersStore.swift:43-46 | reset removes the type only, so the filter object falls back to `.all` with the same date |
| FiltersStore.FiltersStore.Object | Tracker/Filters/FiltersStore.swift:26-28 | the filter object pairs the stored date with the stored type, `.all` when none |
| FiltersStore.FiltersStore.SetType | Tracker/Filters/FiltersStore.swift:30-33 | the type reads back as set and the date is unchanged |
| FiltersStore.FiltersStore.SetDate | Tracker/Filters/FiltersStore.swift:35-41 | the date reads back as set; on another moment the type is no longer today |
| FiltersStore.FiltersStore.Reset | Tracker/Filters/FiltersStore.swift:43-46 | the type is gone and the date kept |
| FiltersViewModel.FilterRow | Tracker/Filters/FiltersViewModel.swift:54-57 | row i has the title of `allCases[i]`, no subtitle, and is marked iff the selection is `allCases[i]` |
| FiltersViewModel.OneRowMarked | Tracker/Filters/FiltersViewModel.swift:54-57 | two different rows are never both marked, and a selection marks some row |
| FiltersViewModel.ChosenRowIsMarked | Tracker/Filters/FiltersViewModel.swift:41-57 | after choosing row i, row i is the marked one |
| FiltersViewModel.FiltersViewModel.Selected | Tracker/Filters/FiltersViewModel.swift:26-28 | the selection is the model's stored type |
| FiltersViewModel.FiltersViewModel.Select | Tracker/Filters/FiltersViewModel.swift:36-39 | the model's type becomes the choice, `didUpdate` fires once, the date is kept |
| FiltersViewModel.FiltersViewModel.SelectAt | Tracker/Filters/FiltersViewModel.swift:41-44 | the model's type becomes `allCases[i]`, `didUpdate` fires once |
| FiltersViewModel.FiltersViewModel.NumberOfSections | Tracker/Filters/FiltersViewModel.swift:50 | one section |
| FiltersViewModel.FiltersViewModel.NumberOfRowsInSection | Tracker/Filters/FiltersViewModel.swift:52 | four rows, one per filter type |
| FiltersViewModel.FiltersViewModel.FindAt | Tracker/Filters/FiltersViewModel.swift:54-57 | the row of `allCases[i]`, marked iff it is the stored type |
| SettingsItems.SelectableRow | Tracker/Filters/FiltersViewModel.swift:8-12 | a selectable row has its title, no subtitle, and its selection flag |
| TrackersListProvider.TrackersOnDay | Tracker/TrackersList/Model/TrackerProvider.swift:69-73 | empty without a date; otherwise exactly the stored trackers irregular or scheduled on the weekday |
| TrackersListProvider.TrackersOnDayIgnoreType | Tracker/TrackersList/Model/TrackerProvider.swift:69-73 | `listByDate` does not depend on the stored filter type |
| TrackersListProvider.TrackerProvider.Predicate | Tracker/TrackersList/Model/TrackerProvider.swift:29-32 | nil without filters or date; otherwise it admits exactly what the filters keep |
| TrackersListProvider.TrackerProvider.Results | Tracker/TrackersList/Model/TrackerProvider.swift:34-45 | the fetched objects are the readable trackers the filters keep |
| TrackersListProvider.TrackerProvider.ListByDate | Tracker/TrackersList/Model/TrackerProvider.swift:69-73 | nothing without a day; otherwise exactly the stored trackers scheduled on the day's weekday |
| TrackersListProvider.TrackerProvider.NumberOfSections | Tracker/TrackersList/Model/TrackerProvider.swift:75-77 | no sections exactly when nothing was fetched |
| TrackersListProvider.TrackerProvider.NumberOfRowsInSection | Tracker/TrackersList/Model/TrackerProvider.swift:79-81 | a section has at least one and at most all fetched objects; 0 when the fetch failed |
| TrackersListProvider.TrackerProvider.GetSection | Tracker/TrackersList/Model/TrackerProvider.swift:90-92 | nil iff the fetch failed; otherwise non-empty, of fetched trackers of one category title |
| TrackersListProvider.TrackerProvider.FindAt | Tracker/TrackersList/Model/TrackerProvider.swift:94-96 | the object is fetched, stored, and of its section's category |
| TrackersListProvider.TrackerProvider.FindById | Tracker/TrackersList/Model/TrackerProvider.swift:98-100 | the store's first tracker with the id, filtered or not |
| TrackersListProvider.TrackerProvider.Filter | Tracker/TrackersList/Model/TrackerProvider.swift:83-88 | the filters are stored, the results are the fetch under `build(filters)`, `didUpdate` fires once |
| TrackersListProvider.TrackerProvider.AddRecord | Tracker/TrackersList/Model/TrackerProvider.swift:102-104 | the store gains the new tracker last |
| TrackersListProvider.TrackerProvider.DeleteRecord | Tracker/TrackersList/Model/TrackerProvider.swift:111-114 | the tracker at the path is no longer stored |
| TrackersListProvider.TrackerProvider.ControllerDidChangeContent | Tracker/TrackersList/Model/TrackerProvider.swift:120-122 | `didUpdate` fires once |
| TrackerProvider.GetPredicate | Tracker/Providers/TrackerProvider.swift:83-97 | nil without a date; otherwise exactly the irregular trackers and those scheduled on the weekday |
| TrackerProvider.GetPredicateIsAllFilter | Tracker/Providers/TrackerProvider.swift:83-97 | every filter type gets the predicate the builder makes for `.all` |
| TrackerProvider.NoteSection | Tracker/Providers/TrackerProvider.swift:208-221 | a section change keeps all-nil-or-all-present, leaves object paths alone, and ignores updates and moves |
| TrackerProvider.NoteSectionsTracks | Tracker/Providers/TrackerProvider.swift:208-221 | a run of section changes tracks inserted and deleted section indexes separately |
| TrackerProvider.SectionPositions | Tracker/Providers/TrackerProvider.swift:208-221 | each section change maps to the index it records for a kind, if any |
| TrackerProvider.SectionBatchCollects | Tracker/Providers/TrackerProvider.swift:153-159 | after will-change, section changes collect exactly the inserted and the deleted indexes |
| TrackerProvider.SectionPositionsMean | Tracker/Providers/TrackerProvider.swift:208-221 | an index is recorded for a kind iff some section change of that kind names it |
| TrackerProvider.FinishBatch | Tracker/Providers/TrackerProvider.swift:161-181 | one `StoreUpdate` with the five sets iff all are present, then all nil; otherwise nothing |
| TrackerProvider.Edited | Tracker/Providers/TrackerProvider.swift:139-142 | only the tracker at the path changes: its title, emoji and color |
| TrackerProvider.TrackerProvider.Results | Tracker/Providers/TrackerProvider.swift:40-60 | the fetched objects are the readable trackers scheduled on the weekday (all when no date) |
| TrackerProvider.FetchedOnDay | Tracker/Providers/TrackerProvider.swift:47-55 | a fetch under `getPredicate` holds exactly the trackers on the weekday, or all without a day |
| TrackerProvider.TrackerProvider.NumberOfSections | Tracker/Providers/TrackerProvider.swift:109-111 | no sections exactly when nothing was fetched |
| TrackerProvider.TrackerProvider.NumberOfRowsInSection | Tracker/Providers/TrackerProvider.swift:113-115 | between one and all fetched objects; 0 when the fetch failed |
| TrackerProvider.TrackerProvider.GetSection | Tracker/Providers/TrackerProvider.swift:123-125 | nil iff the fetch failed; otherwise non-empty, of fetched trackers of one category title |
| TrackerProvider.TrackerProvider.FindAt | Tracker/Providers/TrackerProvider.swift:127-129 | the object is fetched and stored |
| TrackerProvider.TrackerProvider.FindById | Tracker/Providers/TrackerProvider.swift:131-133 | the first fetched tracker with the id; only fetched trackers are found |
| TrackerProvider.TrackerProvider.Filter | Tracker/Providers/TrackerProvider.swift:99-103 | the filters are stored, the fetch is redone with the new predicate, `didReload` fires once, no `didUpdate` |
| TrackerProvider.TrackerProvider.AddRecord | Tracker/Providers/TrackerProvider.swift:135-137 | the new tracker is stored last with a fresh identity |
| TrackerProvider.TrackerProvider.UpdateRecord | Tracker/Providers/TrackerProvider.swift:139-142 | the tracker at the path takes the title, emoji and color; nothing else changes |
| TrackerProvider.TrackerProvider.DeleteRecord | Tracker/Providers/TrackerProvider.swift:144-147 | the tracker at the path is no longer stored |
| TrackerProvider.TrackerProvider.ControllerWillChangeContent | Tracker/Providers/TrackerProvider.swift:153-159 | all five sets become empty |
| TrackerProvider.TrackerProvider.ControllerDidChangeObject | Tracker/Providers/TrackerProvider.swift:183-205 | an object change goes into the set of its kind |
| TrackerProvider.TrackerProvider.ControllerDidChangeSection | Tracker/Providers/TrackerProvider.swift:208-221 | a section insert or delete goes into its index set |
| TrackerProvider.TrackerProvider.ControllerDidChangeContent | Tracker/Providers/TrackerProvider.swift:161-181 | one update when all sets are present, then all nil |
| TrackerStore.WithUpdate | Tracker/TrackersList/Model/TrackerStore.swift:74-82 | the tracker takes title, emoji, color, category and schedule, keeping id, pinned and records; others unchanged |
| TrackerStore.WithPinned | Tracker/TrackersList/Model/TrackerStore.swift:84-88 | only the pinned flag of that tracker changes |
| TrackerStore.Without | Tracker/TrackersList/Model/TrackerStore.swift:90-93 | exactly that tracker is removed, the rest kept |
| TrackerStore.DeleteRemovesOne | Tracker/TrackersList/Model/TrackerStore.swift:90-93 | deleting a stored tracker shrinks the table by one |
| TrackerStore.WithoutNothing | Tracker/TrackersList/Model/TrackerStore.swift:90-93 | deleting an object not stored changes nothing |
| TrackerStore.WithoutKeepsUnique | Tracker/TrackersList/Model/TrackerStore.swift:90-93 | deletion keeps identities unique |
| TrackerStore.AddedTrackerIsFound | Tracker/TrackersList/Model/TrackerStore.swift:59-72 | a tracker added with a new id is what `find(by:)` then returns |
| TrackerStore.TrackerStore.List | Tracker/TrackersList/Model/TrackerStore.swift:40-47 | every tracker, or none when the fetch fails |
| TrackerStore.TrackerStore.ListBy | Tracker/TrackersList/Model/TrackerStore.swift:49-57 | exactly the trackers the predicate admits, none on fetch failure |
| TrackerStore.TrackerStore.Find | Tracker/TrackersList/Model/TrackerStore.swift:59-61 | the first stored tracker with the id, nil iff none or the fetch fails |
| TrackerStore.TrackerStore.Add | Tracker/TrackersList/Model/TrackerStore.swift:63-72 | the new tracker is stored last |
| TrackerStore.TrackerStore.Update | Tracker/TrackersList/Model/TrackerStore.swift:74-82 | the table is `WithUpdate` of the old one |
| TrackerStore.TrackerStore.SetPinned | Tracker/TrackersList/Model/TrackerStore.swift:84-88 | the table is `WithPinned` of the old one |
| TrackerStore.TrackerStore.Delete | Tracker/TrackersList/Model/TrackerStore.swift:90-93 | the table is `Without` of the old one |
| TrackerCategoryStore.FindByTitle | Tracker/Category/Model/TrackerCategoryStore.swift:62-64 | the first category with the title; nil iff none has it |
| TrackerCategoryStore.Retitled | Tracker/Category/Model/TrackerCategoryStore.swift:72-76 | only that category's title changes |
| TrackerCategoryStore.WithoutOid | Tracker/Category/Model/TrackerCategoryStore.swift:78-81 | exactly that category is removed |
| TrackerCategoryStore.AddOrUpdated | Tracker/Category/Model/TrackerCategoryStore.swift:88-97 | nothing when the title exists; else a new category (no index) or a rename of category i |
| TrackerCategoryStore.AddOrUpdateStoresTitle | Tracker/Category/Model/TrackerCategoryStore.swift:88-97 | afterwards some category has the title |
| TrackerCategoryStore.AddOrUpdateIdempotent | Tracker/Category/Model/TrackerCategoryStore.swift:88-89 | a second `addOrUpdate` of the same title changes nothing |
| TrackerCategoryStore.RetitledKeepsTitlesDistinct | Tracker/Category/Model/TrackerCategoryStore.swift:72-76 | renaming to an unused title keeps titles distinct |
| TrackerCategoryStore.AddOrUpdatePreservesDistinctTitles | Tracker/Category/Model/TrackerCategoryStore.swift:88-97 | distinct titles stay distinct |
| TrackerCategoryStore.WithoutOidKeepsTitlesDistinct | Tracker/Category/Model/TrackerCategoryStore.swift:78-86 | deletion keeps titles distinct and identities unique |
| TrackerCategoryStore.FindByTitleSameMembers | Tracker/Providers/CategoryProvider.swift:75-77 | the fetched (re-sorted) objects find a title exactly when the stored ones do |
| TrackerCategoryStore.WithoutOidRemovesOne | Tracker/Category/Model/TrackerCategoryStore.swift:83-86 | `delete(at: i)` shrinks the table by one |
| TrackerCategoryStore.WithoutOidUnique | Tracker/Category/Model/TrackerCategoryStore.swift:78-81 | deletion keeps identities unique |
| TrackerCategoryStore.WithoutOidNothing | Tracker/Category/Model/TrackerCategoryStore.swift:78-81 | deleting a category not stored changes nothing |
| TrackerCategoryStore.TrackerCategoryStore.List | Tracker/Category/Model/TrackerCategoryStore.swift:49-56 | every category, none on fetch failure |
| TrackerCategoryStore.TrackerCategoryStore.Count | Tracker/Category/Model/TrackerCategoryStore.swift:40-47 | the length of `list`, 0 on fetch failure |
| TrackerCategoryStore.TrackerCategoryStore.FindAt | Tracker/Category/Model/TrackerCategoryStore.swift:58-60 | requires `i < count`; a stored category |
| TrackerCategoryStore.TrackerCategoryStore.FindBy | Tracker/Category/Model/TrackerCategoryStore.swift:62-64 | the first stored category with the title; nil iff none or the fetch fails |
| TrackerCategoryStore.TrackerCategoryStore.Add | Tracker/Category/Model/TrackerCategoryStore.swift:66-70 | a new category with the title, stored last |
| TrackerCategoryStore.TrackerCategoryStore.Update | Tracker/Category/Model/TrackerCategoryStore.swift:72-76 | the table is `Retitled` of the old one |
| TrackerCategoryStore.TrackerCategoryStore.Delete | Tracker/Category/Model/TrackerCategoryStore.swift:78-81 | the table is `WithoutOid` of the old one |
| TrackerCategoryStore.TrackerCategoryStore.DeleteAt | Tracker/Category/Model/TrackerCategoryStore.swift:83-86 | category i is removed and the count drops by one |
| TrackerCategoryStore.TrackerCategoryStore.AddOrUpdate | Tracker/Category/Model/TrackerCategoryStore.swift:88-97 | the table is `AddOrUpdated` of the old one; on fetch failure a new category is added |
| TrackerScheduleStore.Rescheduled | Tracker/Schedule/Model/TrackerScheduleStore.swift:70-74 | only that schedule's days change |
| TrackerScheduleStore.WithoutOid | Tracker/Schedule/Model/TrackerScheduleStore.swift:81-84 | exactly that schedule is removed |
| TrackerScheduleStore.WithoutOidRemovesOne | Tracker/Schedule/Model/TrackerScheduleStore.swift:86-89 | `delete(at: i)` shrinks the table by one |
| TrackerScheduleStore.WithoutOidNothing | Tracker/Schedule/Model/TrackerScheduleStore.swift:81-84 | deleting a schedule not stored changes nothing |
| TrackerScheduleStore.UpdateAtChangesOnlyThatSchedule | Tracker/Schedule/Model/TrackerScheduleStore.swift:76-79 | `update(at: i)` changes schedule i's days and no other schedule |
| TrackerScheduleStore.WithoutOidUnique | Tracker/Schedule/Model/TrackerScheduleStore.swift:81-89 | deletion keeps identities unique |
| TrackerScheduleStore.TrackerScheduleStore.List | Tracker/Schedule/Model/TrackerScheduleStore.swift:50-57 | every schedule, none on fetch failure |
| TrackerScheduleStore.TrackerScheduleStore.Count | Tracker/Schedule/Model/TrackerScheduleStore.swift:41-48 | the length of `list`, 0 on fetch failure |
| TrackerScheduleStore.TrackerScheduleStore.FindAt | Tracker/Schedule/Model/TrackerScheduleStore.swift:59-61 | requires `i < count`; a stored schedule |
| TrackerScheduleStore.TrackerScheduleStore.Add | Tracker/Schedule/Model/TrackerScheduleStore.swift:63-68 | a new schedule with the days (nil kept nil), stored last and returned |
| TrackerScheduleStore.TrackerScheduleStore.Update | Tracker/Schedule/Model/TrackerScheduleStore.swift:70-74 | the table is `Rescheduled` of the old one |
| TrackerScheduleStore.TrackerScheduleStore.UpdateAt | Tracker/Schedule/Model/TrackerScheduleStore.swift:76-79 | schedule i takes the days |
| TrackerScheduleStore.TrackerScheduleStore.Delete | Tracker/Schedule/Model/TrackerScheduleStore.swift:81-84 | the table is `WithoutOid` of the old one |
| TrackerScheduleStore.TrackerScheduleStore.DeleteAt | Tracker/Schedule/Model/TrackerScheduleStore.swift:86-89 | schedule i is no longer stored and the count drops by one |
| CategoryProvider.CategoryProvider.Fetched | Tracker/Providers/CategoryProvider.swift:37-48 | every stored category, titles descending |
| CategoryProvider.CategoryProvider.NumberOfSections | Tracker/Providers/CategoryProvider.swift:63-65 | one section, none when the fetch failed |
| CategoryProvider.CategoryProvider.NumberOfRowsInSection | Tracker/Providers/CategoryProvider.swift:67-69 | the store's count |
| CategoryProvider.CategoryProvider.FindAt | Tracker/Providers/CategoryProvider.swift:71-73 | a stored category |
| CategoryProvider.CategoryProvider.FindBy | Tracker/Providers/CategoryProvider.swift:75-77 | the first fetched category with the title; nil iff the store has none |
| CategoryProvider.CategoryProvider.AddRecord | Tracker/Providers/CategoryProvider.swift:79-85 | nothing when the title exists, else exactly one new category with it |
| CategoryProvider.CategoryProvider.UpdateRecord | Tracker/Providers/CategoryProvider.swift:87-90 | the category at the path takes the title, without a duplicate check |
| CategoryProvider.CategoryProvider.DeleteRecord | Tracker/Providers/CategoryProvider.swift:92-95 | the category at the path is no longer stored |
| CategoryProvider.CategoryProvider.ControllerWillChangeContent | Tracker/Providers/CategoryProvider.swift:101-105 | the three sets become empty |
| CategoryProvider.CategoryProvider.ControllerDidChange | Tracker/Providers/CategoryProvider.swift:123-145 | the change goes into the set of its kind |
| CategoryProvider.CategoryProvider.ControllerDidChangeContent | Tracker/Providers/CategoryProvider.swift:107-121 | one update when all sets are present, then nil |
| CategoryEditProvider.CategoryProvider.Fetched | Tracker/Category/ViewModel/CategoryProvider.swift:36-47 | every stored category, titles descending |
| CategoryEditProvider.CategoryProvider.NumberOfSections | Tracker/Category/ViewModel/CategoryProvider.swift:62-64 | one section, none when the fetch failed |
| CategoryEditProvider.CategoryProvider.NumberOfRowsInSection | Tracker/Category/ViewModel/CategoryProvider.swift:66-70 | the store's count, reported through `didNumberOfRowsUpdate` and returned |
| CategoryEditProvider.CategoryProvider.FindAt | Tracker/Category/ViewModel/CategoryProvider.swift:72-74 | a stored category |
| CategoryEditProvider.CategoryProvider.FindBy | Tracker/Category/ViewModel/CategoryProvider.swift:76-78 | the first fetched category with the title; nil iff the store has none |
| CategoryEditProvider.CategoryProvider.AddOrUpdateRecord | Tracker/Category/ViewModel/CategoryProvider.swift:80-90 | nothing when the title exists; a new category without a path; a rename of the category at the path; distinct titles kept |
| CategoryEditProvider.CategoryProvider.DeleteRecord | Tracker/Category/ViewModel/CategoryProvider.swift:92-99 | the category at the path is no longer stored |
| CategoryEditProvider.CategoryProvider.ControllerWillChangeContent | Tracker/Category/ViewModel/CategoryProvider.swift:101-105 | the three sets become empty |
| CategoryEditProvider.CategoryProvider.ControllerDidChange | Tracker/Category/ViewModel/CategoryProvider.swift:123-146 | the change goes into the set of its kind |
| CategoryEditProvider.CategoryProvider.ControllerDidChangeContent | Tracker/Category/ViewModel/CategoryProvider.swift:107-121 | one update when all sets are present, then nil |
| ScheduleProvider.ScheduleProvider.NumberOfSections | Tracker/Providers/ScheduleProvider.swift:66-68 | one section, none when the fetch failed |
| ScheduleProvider.ScheduleProvider.NumberOfRowsInSection | Tracker/Providers/ScheduleProvider.swift:70-72 | the store's count, 0 on fetch failure |
| ScheduleProvider.ScheduleProvider.FindAt | Tracker/Providers/ScheduleProvider.swift:74-76 | the store's schedule at that index |
| ScheduleProvider.ScheduleProvider.AddRecord | Tracker/Providers/ScheduleProvider.swift:78-80 | returns exactly the new schedule the store added |
| ScheduleProvider.ScheduleProvider.UpdateRecord | Tracker/Providers/ScheduleProvider.swift:82-85 | the schedule at the path takes the days |
| ScheduleProvider.ScheduleProvider.DeleteRecord | Tracker/Providers/ScheduleProvider.swift:87-90 | the schedule at the path is no longer stored |
| ScheduleProvider.ScheduleProvider.ControllerWillChangeContent | Tracker/Providers/ScheduleProvider.swift:96-100 | the three sets become empty |
| ScheduleProvider.ScheduleProvider.ControllerDidChange | Tracker/Providers/ScheduleProvider.swift:119-141 | the change goes into the set of its kind |
| ScheduleProvider.ScheduleProvider.ControllerDidChangeContent | Tracker/Providers/ScheduleProvider.swift:102-117 | one update when all sets are present, then nil; nothing without a batch |
| RecordProvider.NoteRecord | Tracker/TrackersList/ViewModel/RecordProvider.swift:105-123 | updates and moves are ignored; nil sets stay nil |
| RecordProvider.FinishRecords | Tracker/TrackersList/ViewModel/RecordProvider.swift:91-103 | reports the two sets iff both are present, then clears them |
| RecordProvider.NoteAllRecordsFollowsNoteAll | Tracker/TrackersList/ViewModel/RecordProvider.swift:105-123 | the two record sets evolve exactly like the insert and delete sets of the three-set providers |
| RecordProvider.RecordBatchCollects | Tracker/TrackersList/ViewModel/RecordProvider.swift:86-123 | a batch reports exactly the inserted and deleted paths; without will-change nothing |
| RecordProvider.WithoutRecord | Tracker/TrackersList/ViewModel/RecordProvider.swift:78-80 | exactly that record is removed |
| RecordProvider.RecordProvider.Fetched | Tracker/TrackersList/ViewModel/RecordProvider.swift:34-47 | all records, date texts descending; none when the fetch fails |
| RecordProvider.RecordProvider.NumberOfSections | Tracker/TrackersList/ViewModel/RecordProvider.swift:61-63 | one section, none when the fetch failed |
| RecordProvider.RecordProvider.NumberOfRowsInSection | Tracker/TrackersList/ViewModel/RecordProvider.swift:65-67 | the number of records, 0 when the fetch failed |
| RecordProvider.RecordProvider.Object | Tracker/TrackersList/ViewModel/RecordProvider.swift:69-71 | a stored record |
| RecordProvider.RecordProvider.AddRecord | Tracker/TrackersList/ViewModel/RecordProvider.swift:73-76 | nothing when no tracker has the id; else one new record on the day linked to it |
| RecordProvider.RecordProvider.DeleteRecord | Tracker/TrackersList/ViewModel/RecordProvider.swift:78-80 | exactly the given record is removed |
| RecordProvider.RecordProvider.ControllerWillChangeContent | Tracker/TrackersList/ViewModel/RecordProvider.swift:86-89 | both sets become empty |
| RecordProvider.RecordProvider.ControllerDidChange | Tracker/TrackersList/ViewModel/RecordProvider.swift:105-123 | insertions and deletions go into their sets |
| RecordProvider.RecordProvider.ControllerDidChangeContent | Tracker/TrackersList/ViewModel/RecordProvider.swift:91-103 | one update when both sets are present, then nil |
| CategoryViewModel.SelectionAfterDelete | Tracker/Category/ViewModel/CategoryViewModel.swift:59-66 | deleting the selected title clears the selection; any other deletion keeps it |
| CategoryViewModel.DeleteKeepsSelectionStored | Tracker/Category/ViewModel/CategoryViewModel.swift:59-66 | with distinct titles, a selection that names a stored category still does after a delete |
| CategoryViewModel.AddOrUpdateKeepsSelectionStored | Tracker/Category/ViewModel/CategoryViewModel.swift:53-57 | after `addOrUpdate` the selected name is a stored title |
| CategoryViewModel.CategoryViewModel.NumberOfSections | Tracker/Category/ViewModel/CategoryViewModel.swift:27 | one section |
| CategoryViewModel.CategoryViewModel.NumberOfRowsInSection | Tracker/Category/ViewModel/CategoryViewModel.swift:29-33 | the store's count, reported through `didNumberOfRowsUpdate` |
| CategoryViewModel.CategoryViewModel.FindAt | Tracker/Category/ViewModel/CategoryViewModel.swift:35-41 | the category at the index; none iff it has no title |
| CategoryViewModel.CategoryViewModel.SelectCategory | Tracker/Category/ViewModel/CategoryViewModel.swift:43-45 | the selection becomes the given title |
| CategoryViewModel.CategoryViewModel.SelectCategoryAt | Tracker/Category/ViewModel/CategoryViewModel.swift:47-51 | the selection becomes the found title and that category is returned |
| CategoryViewModel.CategoryViewModel.AddOrUpdate | Tracker/Category/ViewModel/CategoryViewModel.swift:53-57 | the name is stored and selected, even when it already existed; `didUpdate` fires |
| CategoryViewModel.CategoryViewModel.Delete | Tracker/Category/ViewModel/CategoryViewModel.swift:59-66 | the category goes, the count drops by one, the selection is cleared iff it was that title |
| CategoryViewModel.CategoryViewModel.Edit | Tracker/Category/ViewModel/CategoryViewModel.swift:68-71 | no state changes; the index and the current title go to `navigateToEdition` |
| CategoryTable.CategoryRow | Tracker/Category/CategoryTableProvider.swift:33-39 | nil without a title; else the title, no subtitle, marked iff it equals the selection |
| CategoryTable.OneCategoryMarked | Tracker/Category/CategoryTableProvider.swift:33-39 | with distinct titles at most one row is marked |
| CategoryTable.CategoryTableProvider.NumberOfSections | Tracker/Category/CategoryTableProvider.swift:18-20 | the provider's sections, 0 without a provider |
| CategoryTable.CategoryTableProvider.NumberOfRowsInSection | Tracker/Category/CategoryTableProvider.swift:29-31 | the provider's rows, 0 without a provider |
| CategoryTable.CategoryTableProvider.FindAt | Tracker/Category/CategoryTableProvider.swift:33-39 | nil without a provider or a title; marked iff the title is selected |
| CategoryTable.CategoryTableProvider.SetSelectedCategory | Tracker/Category/CategoryTableProvider.swift:41-43 | stores exactly the given selection |
| CategoryEditTable.CategoryTableProvider.NumberOfSections | Tracker/Category/ViewModel/CategoryTableProvider.swift:18-20 | the view model's section count |
| CategoryEditTable.CategoryTableProvider.NumberOfRowsInSection | Tracker/Category/ViewModel/CategoryTableProvider.swift:28-30 | the view model's row count, reported by it |
| CategoryEditTable.CategoryTableProvider.FindAt | Tracker/Category/ViewModel/CategoryTableProvider.swift:32-35 | nil iff the view model has no title there; marked iff that title is selected |
| ScheduleTable.ScheduleRow | Tracker/Schedule/ScheduleTableProvider.swift:24-27 | row i is day `allCases[i]`, with its stored flag, nil when never set |
| ScheduleTable.ScheduleTableProvider.NumberOfSections | Tracker/Schedule/ScheduleTableProvider.swift:18 | one section |
| ScheduleTable.ScheduleTableProvider.NumberOfRowsInSection | Tracker/Schedule/ScheduleTableProvider.swift:22 | seven rows |
| ScheduleTable.ScheduleTableProvider.FindAt | Tracker/Schedule/ScheduleTableProvider.swift:24-27 | the row of day `allCases[i]` with the stored flag |
| ScheduleTable.ScheduleTableProvider.SetSelectedDays | Tracker/Schedule/ScheduleTableProvider.swift:29-33 | the dictionary becomes exactly the given days, each true |
| ScheduleTable.ScheduleTableProvider.UpdateValue | Tracker/Schedule/ScheduleTableProvider.swift:35-37 | only that day's flag is set |
| ScheduleScreen.PositionOfIndex | Tracker/Schedule/ScheduleViewController.swift:45-50 | the day at position k has position k |
| ScheduleScreen.SwitchedOnFrom | Tracker/Schedule/ScheduleViewController.swift:42-50 | the days from position k switched on, in week order |
| ScheduleScreen.DoneDays | Tracker/Schedule/ScheduleViewController.swift:41-53 | exactly the days mapped to true, in week order, at most seven |
| ScheduleScreen.OrderedElementsSize | Tracker/Schedule/ScheduleViewController.swift:42-50 | a week-ordered list repeats no day |
| ScheduleScreen.OrderedDaysAtMostSeven | Tracker/Schedule/ScheduleViewController.swift:42-50 | a week-ordered list has at most seven days |
| ScheduleScreen.InWeekOrderUnique | Tracker/Schedule/ScheduleViewController.swift:45-50 | two week-ordered lists of the same days are equal |
| ScheduleScreen.SortedSelectionIsDoneDays | Tracker/Schedule/ScheduleViewController.swift:41-53 | any week-ordered list of the days switched on is the done output |
| ScheduleScreen.DoneAfterSetSelectedDays | Tracker/Schedule/ScheduleViewController.swift:36-53 | set then done gives the given days, de-duplicated and in week order |
| ScheduleScreen.ScheduleViewController.SetSelectedDays | Tracker/Schedule/ScheduleViewController.swift:36-38 | the switches on are exactly the given days |
| ScheduleScreen.ScheduleViewController.DidDoneTapped | Tracker/Schedule/ScheduleViewController.swift:41-53 | the delegate gets the days switched on, in week order |
| ScheduleScreen.ScheduleViewController.DidChangeValue | Tracker/Schedule/ScheduleViewController.swift:86-88 | row i's switch sets day `allCases[i]`; that day is in the output iff on, others unchanged |
| EventSettingsTable.CategoryRow | Tracker/EventSettings/EventSettingsTableProvider.swift:17-18 | the category template with the selected category as subtitle, not selected |
| EventSettingsTable.ScheduleRow | Tracker/EventSettings/EventSettingsTableProvider.swift:17-18 | the schedule template with the schedule text as subtitle, not selected |
| EventSettingsTable.RowsFor | Tracker/EventSettings/EventSettingsTableProvider.swift:39-55 | the category row alone for an event; category then schedule for a habit |
| EventSettingsTable.EventSettingsTableProvider.NumberOfSections | Tracker/EventSettings/EventSettingsTableProvider.swift:23 | one section |
| EventSettingsTable.EventSettingsTableProvider.NumberOfRowsInSection | Tracker/EventSettings/EventSettingsTableProvider.swift:29 | the number of rows held |
| EventSettingsTable.EventSettingsTableProvider.FindAt | Tracker/EventSettings/EventSettingsTableProvider.swift:31-33 | the row held at the index |
| EventSettingsTable.EventSettingsTableProvider.SetIsIrregular | Tracker/EventSettings/EventSettingsTableProvider.swift:35-37 | sets the mode without rebuilding the rows |
| EventSettingsTable.EventSettingsTableProvider.UpdateData | Tracker/EventSettings/EventSettingsTableProvider.swift:39-55 | the rows become those of the mode with the given subtitles |
| EventSettingsForm.Joined | Tracker/EventSettings/EventSettingsViewController.swift:186-188 | joined text starts with the first part and is as long as the parts plus the separators between them |
| EventSettingsForm.ShortNames | Tracker/EventSettings/EventSettingsViewController.swift:186-188 | the short name of each chosen day, in the order chosen |
| EventSettingsForm.ScheduleSubtitle | Tracker/EventSettings/EventSettingsViewController.swift:186-188 | "Каждый день" iff seven days are chosen, else the short names joined by ", " |
| EventSettingsForm.EveryWeekdayReadsEveryDay | Tracker/EventSettings/EventSettingsViewController.swift:186-188 | all seven days chosen once, in any order, read "Каждый день" |
| EventSettingsForm.DistinctDaysCount | Tracker/EventSettings/EventSettingsViewController.swift:186-188 | a list naming every day without repeats has exactly seven entries |
| EventSettingsForm.DistinctSize | Tracker/EventSettings/EventSettingsViewController.swift:186-188 | a list without repeats has as many days as entries |
| EventSettingsForm.HasEmpty | Tracker/EventSettings/EventSettingsViewController.swift:13-23 | incomplete iff the name is empty, a choice is missing, or a habit has no days |
| EventSettingsForm.IrregularIgnoresDays | Tracker/EventSettings/EventSettingsViewController.swift:19-21 | for an irregular event the chosen days never make the form incomplete |
| EventSettingsForm.Created | Tracker/EventSettings/EventSettingsViewController.swift:151-173 | the form's values, with the edited tracker's id and pinned flag; a new one has no id and is not pinned |
| EventSettingsForm.EditUnchangedRoundTrip | Tracker/EventSettings/EventSettingsViewController.swift:117-173 | opening a tracker for editing and creating at once gives back its description |
| EventSettingsForm.EventSettingsViewController.UpdateData | Tracker/EventSettings/EventSettingsViewController.swift:185-193 | the rows get the category and the schedule subtitle |
| EventSettingsForm.EventSettingsViewController.UpdateCreateButtonState | Tracker/EventSettings/EventSettingsViewController.swift:175-177 | the button is disabled iff the form is incomplete |
| EventSettingsForm.EventSettingsViewController.UpdateTable | Tracker/EventSettings/EventSettingsViewController.swift:179-183 | rows rebuilt and the button state matches the form |
| EventSettingsForm.EventSettingsViewController.Initialize | Tracker/EventSettings/EventSettingsViewController.swift:110-130 | the mode is set and, when editing, the form takes the tracker's values |
| EventSettingsForm.EventSettingsViewController.DidCompleteSchedule | Tracker/EventSettings/EventSettingsViewController.swift:284-287 | the days are replaced and the table and button follow |
| EventSettingsForm.EventSettingsViewController.DidCompleteCategory | Tracker/EventSettings/EventSettingsViewController.swift:293-296 | the category is replaced and the table and button follow |
| EventSettingsForm.EventSettingsViewController.DidSelectEmoji | Tracker/EventSettings/EventSettingsViewController.swift:314-316 | the emoji is replaced and the button follows |
| EventSettingsForm.EventSettingsViewController.DidSelectColor | Tracker/EventSettings/EventSettingsViewController.swift:322-324 | the color is replaced and the button follows |
| EventSettingsForm.EventSettingsViewController.OnError | Tracker/EventSettings/EventSettingsViewController.swift:306-308 | the button state is recomputed |
| EventSettingsForm.EventSettingsViewController.DidCreateTapped | Tracker/EventSettings/EventSettingsViewController.swift:151-173 | nothing without category, color or emoji; else the delegate gets `Created`, days not re-checked |
| ValidationTextField.Validate | Tracker/Library/TextField/ValidationTextFieldWrapper.swift:73-80 | required-and-empty gives "Обязательное поле" first, too long gives the length message, no error iff acceptable |
| ValidationTextField.DefaultAcceptsOneToThirtyEight | Tracker/Library/TextField/ValidationTextFieldWrapper.swift:18-19 | with the defaults a value is accepted iff it has 1 to 38 characters |
| ValidationTextField.ValidationTextFieldWrapper.constructor | Tracker/Library/TextField/ValidationTextFieldWrapper.swift:18-19 | starts with the default config and `hasError` true |
| ValidationTextField.ValidationTextFieldWrapper.UpdateErrorState | Tracker/Library/TextField/ValidationTextFieldWrapper.swift:82-91 | `hasError` follows the error; `onError` fires with the new value only on a flip |
| ValidationTextField.ValidationTextFieldWrapper.DidValueChanged | Tracker/Library/TextField/ValidationTextFieldWrapper.swift:94-96 | the text is validated and the error state follows |
| ValidationTextField.ValidationTextFieldWrapper.TextFieldShouldClear | Tracker/Library/TextField/ValidationTextFieldWrapper.swift:102-105 | clearing validates the empty text and is allowed |
| ValidationTextField.ValidationTextFieldWrapper.TextFieldShouldReturn | Tracker/Library/TextField/ValidationTextFieldWrapper.swift:107-111 | the delegate is told once and returning is allowed |
| Pluralization.SwiftRem | Tracker/Library/Helpers/pluralizedForm.swift:4-5 | Swift's truncating remainder: the dividend's sign, magnitude below the divisor |
| Pluralization.Pluralize | Tracker/Library/Helpers/pluralizedForm.swift:3-19 | always one of the three forms |
| Pluralization.PluralizeFollowsRussianRule | Tracker/Library/Helpers/pluralizedForm.swift:3-19 | for counts from 0 up, the form the Russian rule prescribes (teens many, ending 1 one, ending 2-4 few) |
| Pluralization.NegativeCountsTakeManyForm | Tracker/Library/Helpers/pluralizedForm.swift:4-17 | every negative count takes the many form |
| Pluralization.LastTwoDigitsDecide | Tracker/Library/Helpers/pluralizedForm.swift:4-5 | only `n % 100` matters |
| TrackersListCell.PluralizedForm | Tracker/TrackersList/TrackersListCell.swift:3-19 | always one of the three forms |
| TrackersListCell.PluralizedFormIsPluralize | Tracker/TrackersList/TrackersListCell.swift:3-19 | the cell's copy agrees with `pluralize` on every count |
| TrackersListCell.CounterText | Tracker/TrackersList/TrackersListCell.swift:124-130 | the count, a space, and one of день, дня, дней |
| TrackersListCell.CounterShowsCount | Tracker/TrackersList/TrackersListCell.swift:124-130 | the digits before the space read back as the count |
| TrackersListCell.CounterTextExamples | Tracker/TrackersList/TrackersListCell.swift:124-130 | 1 день, 3 дня, 12 дней, 21 день |
| StatisticsViewModel.CompletedTrackersCount | Tracker/StatisticsList/StatisticsViewModel.swift:43-47 | at most the number of records, and at least one when there are records |
| StatisticsViewModel.TrackerIdsBound | Tracker/StatisticsList/StatisticsViewModel.swift:44-45 | no more distinct ids than records |
| StatisticsViewModel.RepeatedTrackerCountsOnce | Tracker/StatisticsList/StatisticsViewModel.swift:45 | another record of a counted tracker leaves the count |
| StatisticsViewModel.NewTrackerCountsOneMore | Tracker/StatisticsList/StatisticsViewModel.swift:45 | a record of a new tracker adds one |
| StatisticsViewModel.CountIgnoresOrder | Tracker/StatisticsList/StatisticsViewModel.swift:43-47 | the count does not depend on record order |
| StatisticsViewModel.GetStatistics | Tracker/StatisticsList/StatisticsViewModel.swift:43-47 | decimal digits that read back as the distinct-tracker count |
| StatisticsViewModel.StatisticsViewModel.NumberOfSections | Tracker/StatisticsList/StatisticsViewModel.swift:23 | one section |
| StatisticsViewModel.StatisticsViewModel.NumberOfRowsInSection | Tracker/StatisticsList/StatisticsViewModel.swift:31-35 | one row, reported through `didNumberOfRowsUpdate` and returned |
| StatisticsViewModel.StatisticsViewModel.ConfigureCell | Tracker/StatisticsList/StatisticsViewModel.swift:37-41 | "Трекеров завершено" with the count computed now |
| TrackersViewModel.FirstOn | Tracker/TrackersList/ViewModel/TrackersViewModel.swift:123 | the first record dated the day, none iff no record is |
| TrackersViewModel.ConfigCell | Tracker/TrackersList/ViewModel/TrackersViewModel.swift:89-113 | nil without a day or a field; else the tracker's fields, its record count, completion on the day, and disabled iff the day is in the future |
| TrackersViewModel.RemoveAt | Tracker/TrackersList/ViewModel/TrackersViewModel.swift:128 | the records without the one at the index, in order |
| TrackersViewModel.DatedAfterRemove | Tracker/TrackersList/ViewModel/TrackersViewModel.swift:128 | a day stays completed after a deletion iff another record has it |
| TrackersViewModel.ToggleCounts | Tracker/TrackersList/ViewModel/TrackersViewModel.swift:115-129 | toggling changes only the records, by one up or down |
| TrackersViewModel.AddCompletes | Tracker/TrackersList/ViewModel/TrackersViewModel.swift:123-126 | adding completes the day and no other |
| TrackersViewModel.RemoveUncompletes | Tracker/TrackersList/ViewModel/TrackersViewModel.swift:128 | with one record per day, deleting un-completes the day and no other |
| TrackersViewModel.ToggleFlips | Tracker/TrackersList/ViewModel/TrackersViewModel.swift:115-129 | a toggle flips that day's completion only |
| TrackersViewModel.ToggleKeepsOneRecordPerDay | Tracker/TrackersList/ViewModel/TrackersViewModel.swift:115-129 | at most one record per day is kept |
| TrackersViewModel.ToggleTwiceRestores | Tracker/TrackersList/ViewModel/TrackersViewModel.swift:123-128 | two toggles from no record give back the tracker |
| TrackersViewModel.WithToggled | Tracker/TrackersList/ViewModel/TrackersViewModel.swift:115-129 | only the toggled tracker changes |
| TrackersViewModel.ToggleKeepsRecordsWellFormed | Tracker/TrackersList/ViewModel/TrackersViewModel.swift:115-129 | one record per day and fresh record identities are kept |
| TrackersViewModel.WithToggledKeepsInvariants | Tracker/TrackersList/ViewModel/TrackersViewModel.swift:115-129 | the table stays well formed and the toggled tracker's completion flips |
| TrackersViewModel.CellAfterToggle | Tracker/TrackersList/ViewModel/TrackersViewModel.swift:89-129 | a redrawn cell flips its completion and moves its count by one |
| TrackersViewModel.ScheduleDays | Tracker/TrackersList/ViewModel/TrackersViewModel.swift:132-134 | nil for no days, else the raw values in the same order |
| TrackersViewModel.AddedTrackerSchedule | Tracker/TrackersList/ViewModel/TrackersViewModel.swift:131-138 | an added tracker shows on exactly its days, or every day without days |
| TrackersViewModel.TrackersViewModel.CanBeFiltered | Tracker/TrackersList/ViewModel/TrackersViewModel.swift:66-68 | true iff some stored tracker is on the filter day |
| TrackersViewModel.TrackersViewModel.NumberOfSections | Tracker/TrackersList/ViewModel/TrackersViewModel.swift:70-74 | the provider's count, 0 without one, reported |
| TrackersViewModel.TrackersViewModel.NumberOfRowsInSection | Tracker/TrackersList/ViewModel/TrackersViewModel.swift:76-78 | the provider's count, 0 without one |
| TrackersViewModel.TrackersViewModel.GetSection | Tracker/TrackersList/ViewModel/TrackersViewModel.swift:84-87 | the section's title, nil without a provider or fetch |
| TrackersViewModel.TrackersViewModel.GetConfigCell | Tracker/TrackersList/ViewModel/TrackersViewModel.swift:89-113 | nil without a provider or a day; else the cell model of the tracker at the path, which is stored |
| TrackersViewModel.TrackersViewModel.Filter | Tracker/TrackersList/ViewModel/TrackersViewModel.swift:80-82 | the provider refetches with the stored filter |
| TrackersViewModel.TrackersViewModel.UpdateCounter | Tracker/TrackersList/ViewModel/TrackersViewModel.swift:115-129 | the tracker's record on the day is added or removed; nothing without a day or tracker |
| TrackersViewModel.TrackersViewModel.ToggleRecord | Tracker/TrackersList/ViewModel/TrackersViewModel.swift:123-128 | the tracker's completion on the day flips, the table stays well formed, the next record identity advances |
| TrackersViewModel.TrackersViewModel.Add | Tracker/TrackersList/ViewModel/TrackersViewModel.swift:131-138 | the schedule is stored first; the tracker only with a stored category |
| TrackersViewModel.TrackersViewModel.DidDateChange | Tracker/TrackersList/ViewModel/TrackersViewModel.swift:140-143 | the date is stored and the provider refetches |
| TrackersListController.Shown | Tracker/TrackersList/TrackersListViewController.swift:93-96 | exactly the trackers on the weekday, in order |
| TrackersListController.NarrowedAll | Tracker/TrackersList/TrackersListViewController.swift:93-97 | every category narrowed to the day, in order |
| TrackersListController.ByWeekday | Tracker/TrackersList/TrackersListViewController.swift:86-98 | narrowed categories, empty ones dropped, order kept |
| TrackersListController.ByWeekdayListsShownTrackers | Tracker/TrackersList/TrackersListViewController.swift:86-98 | a tracker is listed iff it is in a category and on the day |
| TrackersListController.FirstRecord | Tracker/TrackersList/TrackersListViewController.swift:243 | the first record of the tracker on the day; none iff absent |
| TrackersListController.Tapped | Tracker/TrackersList/TrackersListViewController.swift:240-251 | appended when absent, else the first match removed |
| TrackersListController.TapTwiceRestores | Tracker/TrackersList/TrackersListViewController.swift:240-251 | two taps from no record give back the records |
| TrackersListController.RecordsOf | Tracker/TrackersList/TrackersListViewController.swift:201 | exactly the tracker's records |
| TrackersListController.RecordsOfAppend | Tracker/TrackersList/TrackersListViewController.swift:201 | the tracker's records of a concatenation |
| TrackersListController.RecordsOfRemove | Tracker/TrackersList/TrackersListViewController.swift:201 | removing one record affects only its tracker's records |
| TrackersListController.TapAppendCounts | Tracker/TrackersList/TrackersListViewController.swift:243-247 | an append adds one to that tracker's count only |
| TrackersListController.TapRemoveCounts | Tracker/TrackersList/TrackersListViewController.swift:249 | a removal takes one from that tracker's count only |
| TrackersListController.TapRemoveKeepsOthers | Tracker/TrackersList/TrackersListViewController.swift:249 | a removal leaves other trackers' records |
| TrackersListController.TapCounts | Tracker/TrackersList/TrackersListViewController.swift:240-251 | a tap changes only the tapped tracker's count, by one |
| TrackersListController.TapFlips | Tracker/TrackersList/TrackersListViewController.swift:240-251 | without duplicates, a tap flips the day's completion |
| TrackersListController.CellModel | Tracker/TrackersList/TrackersListViewController.swift:195-214 | nil without a day; else the tracker's record count and its completion on the day |
| TrackersListController.TrackersListViewController.SetDate | Tracker/TrackersList/TrackersListViewController.swift:78-80 | a filter on the day with `.all` |
| TrackersListController.TrackersListViewController.FilterCategoriesByDate | Tracker/TrackersList/TrackersListViewController.swift:86-101 | the fixed categories narrowed to the day; nothing without a day |
| TrackersListController.TrackersListViewController.DidDateChanged | Tracker/TrackersList/TrackersListViewController.swift:73-76 | the day is set and the categories narrowed to it |
| TrackersListController.TrackersListViewController.ConfigCell | Tracker/TrackersList/TrackersListViewController.swift:195-214 | the tracker's count and completion on the day; nil without a day |
| TrackersListController.TrackersListViewController.DidTapCounter | Tracker/TrackersList/TrackersListViewController.swift:240-251 | the records become `Tapped`; nothing without a day |

## Left out

- Persistence. CoreData contexts, saving, `PersistentContainer` and the
  fetched-results machinery are replaced by in-memory tables and functions.
  A failing context is modelled only as a fetch that returns nothing.
- Foreign libraries. `DateFormatter`, `Calendar` and the locales are not
  modelled. Their outputs are fields of the date value or parameters:
  "dd.MM.yy" text, weekday names, the parsed instant and the start of today.
- Error reporting. `print` of errors is not modelled.
- Text ordering. It is lexicographic by code point. Locale-aware string
  comparison is not modelled.
- Weekday names. The `Weekday` enum file and its `rawValue`, `translated` and
  `shortTranslated` are not part of this model. They are passed in as
  functions, so no property depends on the actual names.
- `TrackerInfo`. Its definition is not part of this model. It is modelled as
  id, tracker values, weekdays and category title, without a records count.
- UIKit. Views, cells, layout, navigation, reload calls and the date picker
  are not modelled. Neither is the "today" rule of the later list screen.
- TrackerRecordStore is not part of this model. The record provider holds
  the record table itself.
- TrackersListProvider.TrackerProvider: `updateRecord` (TrackerProvider.swift
  lines 106-109 of the list model) is not modelled. It calls a two-argument
  tracker-store `update` that the store in the same folder does not offer.
- ValidationTextField.Validate: counts characters of the string. Swift's
  `count` counts grapheme clusters, so combined characters count differently.
- ValidationTextField.ValidationTextFieldWrapper.DidValueChanged: the text
  field is taken to be attached. The optional text is the field's text.
- EventSettingsForm.EventSettingsViewController.Initialize: the create
  button's first state, set when the view loads, is left to
  `UpdateCreateButtonState`.
- Delegates and callbacks. These are modelled as always present, as logs of
  what they receive. The `weak var delegate` of the category provider
  (Tracker/Providers/CategoryProvider.swift), of the schedule provider, of
  the record provider and of the tracker provider in Tracker/Providers is
  the provider's `updates` sequence. The optional `didUpdate`,
  `didNumberOfRowsUpdate` and `navigateToEdition` closures of the category
  screen's provider and the category, filters, statistics and trackers view
  models are counters or sequences of the values passed. So the model does
  not cover a delegate that was released or a closure that was never set;
  in the source those calls do nothing. The schedule screen's and the
  form's delegates are logs too. The trackers view model's optional
  provider is kept optional.
- ScheduleScreen.DoneDays: the `firstIndex` lookup in the sort cannot fail,
  because every day is in `allCases`. So its guard is not modelled.
- Analytics events, onboarding and the colour and weekday value
  transformers are not modelled. They are wrappers over foreign SDKs and
  encoders.
