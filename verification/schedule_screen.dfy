/**
 * The schedule screen: switching a weekday on or off stores it in the table
 * provider, and "done" hands the days switched on to the delegate, in the
 * order of the week.
 */
module ScheduleScreen {
  import opened Base
  import opened ChangeBatch
  import Table = ScheduleTable

  /** Each day comes strictly before the next in the week; so no day appears twice. */
  predicate InWeekOrder(s: seq<Weekday>)
  {
    forall i, j :: 0 <= i < j < |s| ==> Position(s[i]) < Position(s[j])
  }

  lemma PositionOfIndex(k: nat)
    requires k < |AllWeekdays|
    ensures Position(AllWeekdays[k]) == k
  {
    AllWeekdaysListsEachDayOnce();
  }

  /** The days from position `k` on whose value is `true`, in the order of the week. */
  function SwitchedOnFrom(selectedDays: map<Weekday, bool>, k: nat): (r: seq<Weekday>)
    requires k <= |AllWeekdays|
    ensures forall d :: d in r <==> Position(d) >= k && d in selectedDays && selectedDays[d]
    ensures InWeekOrder(r)
    decreases |AllWeekdays| - k
  {
    if k == |AllWeekdays| then []
    else
      var day := AllWeekdays[k];
      var rest := SwitchedOnFrom(selectedDays, k + 1);
      PositionOfIndex(k);
      var r := (if day in selectedDays && selectedDays[day] then [day] else []) + rest;
      assert forall d :: Position(d) >= k ==> Position(d) == k || Position(d) >= k + 1;
      assert forall d :: Position(d) == k ==> d == day;
      r
  }

  /**
   * `didDoneTapped`: the days whose switch is on, sorted by their place in
   * `Weekday.allCases`.
   */
  function DoneDays(selectedDays: map<Weekday, bool>): (r: seq<Weekday>)
    ensures forall d :: d in r <==> d in selectedDays && selectedDays[d]
    ensures InWeekOrder(r)
    ensures |r| <= |AllWeekdays|
  {
    var r := SwitchedOnFrom(selectedDays, 0);
    OrderedDaysAtMostSeven(r);
    r
  }

  /** The days a list mentions. */
  function Elements(s: seq<Weekday>): (r: set<Weekday>)
    ensures forall d :: d in r <==> d in s
  {
    set d | d in s
  }

  /** A list mentions at most as many days as it is long. */
  lemma {:induction false} ElementsAtMostLength(s: seq<Weekday>)
    ensures |Elements(s)| <= |s|
    decreases |s|
  {
    if s != [] {
      ElementsAtMostLength(s[1..]);
      assert Elements(s) == {s[0]} + Elements(s[1..]);
    }
  }

  /** An ordered list repeats no day, so it mentions exactly as many days as it is long. */
  lemma {:induction false} OrderedElementsSize(s: seq<Weekday>)
    requires InWeekOrder(s)
    ensures |Elements(s)| == |s|
    decreases |s|
  {
    if s != [] {
      assert InWeekOrder(s[1..]) by {
        forall x, y | 0 <= x < y < |s[1..]| ensures Position(s[1..][x]) < Position(s[1..][y]) {
          assert s[1..][x] == s[x + 1] && s[1..][y] == s[y + 1];
        }
      }
      OrderedElementsSize(s[1..]);
      assert s[0] !in Elements(s[1..]) by {
        forall k | 0 <= k < |s[1..]| ensures s[1..][k] != s[0] {
          assert Position(s[0]) < Position(s[k + 1]);
        }
      }
      assert Elements(s) == {s[0]} + Elements(s[1..]);
    }
  }

  lemma SubsetSize(a: set<Weekday>, b: set<Weekday>)
    requires a <= b
    ensures |a| <= |b|
  {
    assert b == a + (b - a);
  }

  /** An ordered list of days lists each day at most once, so it has at most seven. */
  lemma OrderedDaysAtMostSeven(s: seq<Weekday>)
    requires InWeekOrder(s)
    ensures |s| <= |AllWeekdays|
  {
    OrderedElementsSize(s);
    AllWeekdaysListsEachDayOnce();
    SubsetSize(Elements(s), Elements(AllWeekdays));
    ElementsAtMostLength(AllWeekdays);
  }

  /** Dropping the first day keeps the order, and the first day does not come back. */
  lemma TailInWeekOrder(s: seq<Weekday>)
    requires InWeekOrder(s) && s != []
    ensures InWeekOrder(s[1..]) && s[0] !in s[1..]
  {
    forall x, y | 0 <= x < y < |s[1..]| ensures Position(s[1..][x]) < Position(s[1..][y]) {
      assert s[1..][x] == s[x + 1] && s[1..][y] == s[y + 1];
    }
    forall k | 0 <= k < |s[1..]| ensures s[1..][k] != s[0] {
      assert Position(s[0]) < Position(s[k + 1]);
    }
  }

  /** The first day of an ordered list is its earliest. */
  lemma HeadIsEarliest(s: seq<Weekday>, d: Weekday)
    requires InWeekOrder(s) && d in s
    ensures Position(s[0]) <= Position(d)
  {
    var k :| 0 <= k < |s| && s[k] == d;
    if k > 0 {
      assert Position(s[0]) < Position(s[k]);
    }
  }

  /** Two ordered lists of the same days start with the same day. */
  lemma HeadsAgree(a: seq<Weekday>, b: seq<Weekday>)
    requires InWeekOrder(a) && InWeekOrder(b) && a != []
    requires forall d :: d in a <==> d in b
    ensures b != [] && a[0] == b[0]
  {
    assert a[0] in b;
    HeadIsEarliest(a, b[0]);
    HeadIsEarliest(b, a[0]);
    assert AllWeekdays[Position(a[0])] == a[0];
    assert AllWeekdays[Position(b[0])] == b[0];
  }

  /**
   * There is only one ordered list of a given set of days: whatever sort
   * `didDoneTapped` runs on the dictionary's keys, it yields `DoneDays`.
   */
  lemma {:induction false} InWeekOrderUnique(a: seq<Weekday>, b: seq<Weekday>)
    requires InWeekOrder(a) && InWeekOrder(b)
    requires forall d :: d in a <==> d in b
    ensures a == b
    decreases |a|
  {
    if a != [] {
      HeadsAgree(a, b);
      TailInWeekOrder(a);
      TailInWeekOrder(b);
      forall d ensures d in a[1..] <==> d in b[1..] {
        assert d in a <==> d == a[0] || d in a[1..] by {
          assert a == [a[0]] + a[1..];
        }
        assert d in b <==> d == b[0] || d in b[1..] by {
          assert b == [b[0]] + b[1..];
        }
      }
      InWeekOrderUnique(a[1..], b[1..]);
      assert a == [a[0]] + a[1..] && b == [b[0]] + b[1..];
    } else {
      OrderedElementsSize(b);
      assert Elements(b) == {};
    }
  }

  /** Any ordering by week position of the days switched on is `DoneDays`. */
  lemma SortedSelectionIsDoneDays(selectedDays: map<Weekday, bool>, sorted: seq<Weekday>)
    requires InWeekOrder(sorted)
    requires forall d :: d in sorted <==> d in selectedDays && selectedDays[d]
    ensures sorted == DoneDays(selectedDays)
  {
    InWeekOrderUnique(sorted, DoneDays(selectedDays));
  }

  /**
   * `setSelectedDays(ds)` followed by done, with no switch touched: the
   * listed days without repeats, in the order of the week.
   */
  lemma DoneAfterSetSelectedDays(days: seq<Weekday>, selectedDays: map<Weekday, bool>)
    requires forall d :: d in selectedDays <==> d in days
    requires forall d :: d in selectedDays ==> selectedDays[d]
    ensures forall d :: d in DoneDays(selectedDays) <==> d in days
    ensures InWeekOrder(DoneDays(selectedDays)) && |DoneDays(selectedDays)| <= |days|
  {
    var r := DoneDays(selectedDays);
    OrderedElementsSize(r);
    SubsetSize(Elements(r), Elements(days));
    ElementsAtMostLength(days);
  }

  class ScheduleViewController {
    const tableProvider: Table.ScheduleTableProvider
    /** The lists handed to the delegate's `didComplete`, oldest first. */
    var completions: seq<seq<Weekday>>

    constructor ()
      ensures fresh(tableProvider) && tableProvider.selectedDays == map[] && completions == []
    {
      tableProvider := new Table.ScheduleTableProvider();
      completions := [];
    }

    /** `setSelectedDays`: handed to the table provider. */
    method SetSelectedDays(days: seq<Weekday>)
      modifies tableProvider
      ensures forall d :: d in tableProvider.selectedDays <==> d in days
      ensures forall d :: d in tableProvider.selectedDays ==> tableProvider.selectedDays[d]
      ensures forall d :: d in DoneDays(tableProvider.selectedDays) <==> d in days
    {
      tableProvider.SetSelectedDays(days);
    }

    /** `didDoneTapped`: the days switched on, in week order, go to the delegate. */
    method DidDoneTapped()
      modifies this
      ensures completions == old(completions) + [DoneDays(tableProvider.selectedDays)]
    {
      var selectedDays := DoneDays(tableProvider.selectedDays);
      completions := completions + [selectedDays];
    }

    /** `didChangeValue(_:for:isOn:)`: the switch of row `item` sets day `allCases[item]`; another row traps. */
    method DidChangeValue(p: IndexPath, isOn: bool)
      requires p.item < |AllWeekdays|
      modifies tableProvider
      ensures tableProvider.selectedDays == old(tableProvider.selectedDays)[AllWeekdays[p.item] := isOn]
      ensures AllWeekdays[p.item] in DoneDays(tableProvider.selectedDays) <==> isOn
      ensures forall d :: d != AllWeekdays[p.item] ==> (d in DoneDays(tableProvider.selectedDays) <==> d in DoneDays(old(tableProvider.selectedDays)))
    {
      tableProvider.UpdateValue(AllWeekdays[p.item], isOn);
    }
  }
}
