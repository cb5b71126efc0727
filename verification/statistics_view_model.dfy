/**
 * The statistics screen: one section with one row, "Трекеров завершено",
 * whose value is the number of distinct tracker ids among all completion
 * records. The records are the record store's list, passed in.
 */
module StatisticsViewModel {
  import opened Base
  import opened Entities

  /** The ids `list.map(\.tracker?.id)` yields, as a set; a record without a tracker adds nil. */
  function TrackerIds(records: seq<RecordEntity>): set<Option<Uuid>>
  {
    set r | r in records :: r.trackerId
  }

  /** `getCompletedTrackersCount`, before it is printed. */
  function CompletedTrackersCount(records: seq<RecordEntity>): (n: nat)
    ensures n <= |records|
    ensures records != [] ==> n >= 1
  {
    TrackerIdsBound(records);
    assert records != [] ==> records[0].trackerId in TrackerIds(records);
    |TrackerIds(records)|
  }

  lemma {:induction false} TrackerIdsBound(records: seq<RecordEntity>)
    ensures |TrackerIds(records)| <= |records|
    decreases |records|
  {
    if records != [] {
      TrackerIdsBound(records[1..]);
      assert TrackerIds(records) == {records[0].trackerId} + TrackerIds(records[1..]) by {
        assert records == [records[0]] + records[1..];
        forall x | x in TrackerIds(records) ensures x in {records[0].trackerId} + TrackerIds(records[1..]) {
          var r :| r in records && r.trackerId == x;
          if r != records[0] { assert r in records[1..]; }
        }
      }
    }
  }

  /** Another record of a tracker already counted does not change the count. */
  lemma RepeatedTrackerCountsOnce(records: seq<RecordEntity>, r: RecordEntity)
    requires exists q :: q in records && q.trackerId == r.trackerId
    ensures CompletedTrackersCount(records + [r]) == CompletedTrackersCount(records)
  {
    assert TrackerIds(records + [r]) == TrackerIds(records);
  }

  /** A record of a tracker not yet counted raises the count by one. */
  lemma NewTrackerCountsOneMore(records: seq<RecordEntity>, r: RecordEntity)
    requires forall q :: q in records ==> q.trackerId != r.trackerId
    ensures CompletedTrackersCount(records + [r]) == CompletedTrackersCount(records) + 1
  {
    assert TrackerIds(records + [r]) == TrackerIds(records) + {r.trackerId};
  }

  /** The count does not depend on the order of the records. */
  lemma CountIgnoresOrder(records: seq<RecordEntity>, other: seq<RecordEntity>)
    requires multiset(records) == multiset(other)
    ensures CompletedTrackersCount(records) == CompletedTrackersCount(other)
  {
    assert forall r :: r in records <==> r in multiset(records);
    assert forall r :: r in other <==> r in multiset(other);
    assert TrackerIds(records) == TrackerIds(other);
  }

  /** What a statistics row computes. */
  datatype Statistic = CompletedTrackers

  datatype StatisticsItem = StatisticsItem(description: string, statistic: Statistic)

  datatype StatisticsCellModel = StatisticsCellModel(description: string, value: string)

  const StatisticsData: seq<StatisticsItem> := [StatisticsItem("Трекеров завершено", CompletedTrackers)]

  /** A statistic, printed as `String(count)` prints it. */
  function GetStatistics(s: Statistic, records: seq<RecordEntity>): (v: string)
    ensures (forall i :: 0 <= i < |v| ==> '0' <= v[i] <= '9') && DigitsValue(v) == CompletedTrackersCount(records)
  {
    NatToStringRoundTrip(CompletedTrackersCount(records));
    NatToString(CompletedTrackersCount(records))
  }

  class StatisticsViewModel {
    /** The values `didNumberOfRowsUpdate` has been called with. */
    var rowCountReports: seq<int>

    constructor ()
      ensures rowCountReports == []
    {
      rowCountReports := [];
    }

    function NumberOfSections(): (n: nat)
      ensures n == 1
    {
      1
    }

    /** The row count, reported to the callback and returned. */
    method NumberOfRowsInSection(section: int) returns (n: int)
      modifies this
      ensures n == |StatisticsData| == 1
      ensures rowCountReports == old(rowCountReports) + [n]
    {
      n := |StatisticsData|;
      rowCountReports := rowCountReports + [n];
    }

    /** `configureCell(forRowAt:)`: the row's description and its value computed now. */
    function ConfigureCell(item: nat, records: seq<RecordEntity>): (c: StatisticsCellModel)
      requires item < |StatisticsData|
      ensures c.description == "Трекеров завершено"
      ensures (forall i :: 0 <= i < |c.value| ==> '0' <= c.value[i] <= '9') && DigitsValue(c.value) == CompletedTrackersCount(records)
    {
      var config := StatisticsData[item];
      StatisticsCellModel(config.description, GetStatistics(config.statistic, records))
    }
  }
}
