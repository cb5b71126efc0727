/**
 * The ordering a fetch request's sort descriptors impose: strings compare by
 * code point, a missing value sorts before any present one, a key has a
 * primary and a secondary part, and a sort is ascending or descending on it.
 * `SortBy` is the stand-in for CoreData sorting a fetch's results.
 */
module Ordering {
  import opened Base

  /** Code-point lexicographic order on strings. */
  predicate StrLe(a: string, b: string)
    decreases |a|
  {
    |a| == 0 || (|b| > 0 && (a[0] < b[0] || (a[0] == b[0] && StrLe(a[1..], b[1..]))))
  }

  lemma {:induction false} StrLeTotal(a: string, b: string)
    ensures StrLe(a, b) || StrLe(b, a)
    decreases |a|
  {
    if |a| > 0 && |b| > 0 && a[0] == b[0] {
      StrLeTotal(a[1..], b[1..]);
    }
  }

  lemma {:induction false} StrLeTrans(a: string, b: string, c: string)
    requires StrLe(a, b) && StrLe(b, c)
    ensures StrLe(a, c)
    decreases |a|
  {
    if |a| > 0 && a[0] == b[0] && b[0] == c[0] {
      StrLeTrans(a[1..], b[1..], c[1..]);
    }
  }

  lemma {:induction false} StrLeAntisymmetric(a: string, b: string)
    requires StrLe(a, b) && StrLe(b, a)
    ensures a == b
    decreases |a|
  {
    if |a| > 0 {
      StrLeAntisymmetric(a[1..], b[1..]);
      assert a == [a[0]] + a[1..] && b == [b[0]] + b[1..];
    }
  }

  /** Optional strings: a missing value comes first. */
  predicate OptLe(a: Option<string>, b: Option<string>)
  {
    a.None? || (b.Some? && StrLe(a.value, b.value))
  }

  lemma OptLeTotal(a: Option<string>, b: Option<string>)
    ensures OptLe(a, b) || OptLe(b, a)
  {
    if a.Some? && b.Some? { StrLeTotal(a.value, b.value); }
  }

  lemma OptLeTrans(a: Option<string>, b: Option<string>, c: Option<string>)
    requires OptLe(a, b) && OptLe(b, c)
    ensures OptLe(a, c)
  {
    if a.Some? { StrLeTrans(a.value, b.value, c.value); }
  }

  lemma OptLeAntisymmetric(a: Option<string>, b: Option<string>)
    requires OptLe(a, b) && OptLe(b, a)
    ensures a == b
  {
    if a.Some? { StrLeAntisymmetric(a.value, b.value); }
  }

  /** A sort key: the first sort descriptor's value, then the second's. */
  datatype Key = Key(primary: Option<string>, secondary: Option<string>)

  predicate KeyLe(a: Key, b: Key)
  {
    if a.primary == b.primary then OptLe(a.secondary, b.secondary) else OptLe(a.primary, b.primary)
  }

  lemma KeyLeTotal(a: Key, b: Key)
    ensures KeyLe(a, b) || KeyLe(b, a)
  {
    OptLeTotal(a.primary, b.primary);
    OptLeTotal(a.secondary, b.secondary);
  }

  lemma KeyLeTrans(a: Key, b: Key, c: Key)
    requires KeyLe(a, b) && KeyLe(b, c)
    ensures KeyLe(a, c)
  {
    if a.primary == b.primary && b.primary == c.primary {
      OptLeTrans(a.secondary, b.secondary, c.secondary);
    } else if a.primary == b.primary || b.primary == c.primary {
    } else {
      OptLeTrans(a.primary, b.primary, c.primary);
      if a.primary == c.primary {
        OptLeAntisymmetric(a.primary, b.primary);
      }
    }
  }

  /** Whether `x` may stand before `y` in a sort on `key`. */
  predicate Precedes<T>(x: T, y: T, key: T -> Key, descending: bool)
  {
    if descending then KeyLe(key(y), key(x)) else KeyLe(key(x), key(y))
  }

  lemma PrecedesTotal<T>(x: T, y: T, key: T -> Key, descending: bool)
    ensures Precedes(x, y, key, descending) || Precedes(y, x, key, descending)
  {
    KeyLeTotal(key(x), key(y));
  }

  lemma PrecedesTrans<T>(x: T, y: T, z: T, key: T -> Key, descending: bool)
    requires Precedes(x, y, key, descending) && Precedes(y, z, key, descending)
    ensures Precedes(x, z, key, descending)
  {
    if descending { KeyLeTrans(key(z), key(y), key(x)); } else { KeyLeTrans(key(x), key(y), key(z)); }
  }

  predicate SortedBy<T>(s: seq<T>, key: T -> Key, descending: bool)
  {
    forall i, j :: 0 <= i < j < |s| ==> Precedes(s[i], s[j], key, descending)
  }

  /** `x` put in front of the first element it may precede. */
  function InsertBy<T>(x: T, s: seq<T>, key: T -> Key, descending: bool): (r: seq<T>)
    ensures multiset(r) == multiset(s) + multiset{x}
  {
    if s == [] then [x]
    else if Precedes(x, s[0], key, descending) then [x] + s
    else
      assert s == [s[0]] + s[1..];
      [s[0]] + InsertBy(x, s[1..], key, descending)
  }

  /** The fetch's results in sort-descriptor order (an insertion sort). */
  function SortBy<T>(s: seq<T>, key: T -> Key, descending: bool): (r: seq<T>)
    ensures multiset(r) == multiset(s)
  {
    if s == [] then []
    else
      assert s == [s[0]] + s[1..];
      InsertBy(s[0], SortBy(s[1..], key, descending), key, descending)
  }

  lemma {:induction false} InsertBySorted<T>(x: T, s: seq<T>, key: T -> Key, descending: bool)
    requires SortedBy(s, key, descending)
    ensures SortedBy(InsertBy(x, s, key, descending), key, descending)
    decreases |s|
  {
    if s == [] {
    } else if Precedes(x, s[0], key, descending) {
      forall k | 0 <= k < |s| ensures Precedes(x, s[k], key, descending) {
        if k > 0 {
          PrecedesTrans(x, s[0], s[k], key, descending);
        }
      }
      ConsSorted(x, s, key, descending);
    } else {
      PrecedesTotal(x, s[0], key, descending);
      InsertBySorted(x, s[1..], key, descending);
      HeadPrecedesInserted(x, s, key, descending);
      ConsSorted(s[0], InsertBy(x, s[1..], key, descending), key, descending);
    }
  }

  /** A sorted sequence stays sorted with an element in front that precedes all of it. */
  lemma ConsSorted<T>(h: T, t: seq<T>, key: T -> Key, descending: bool)
    requires SortedBy(t, key, descending)
    requires forall k :: 0 <= k < |t| ==> Precedes(h, t[k], key, descending)
    ensures SortedBy([h] + t, key, descending)
  {
    var r := [h] + t;
    forall i, j | 0 <= i < j < |r| ensures Precedes(r[i], r[j], key, descending) {
      assert r[j] == t[j - 1];
    }
  }

  /** The head of a sorted sequence precedes everything in the rest with `x` inserted, once it precedes `x`. */
  lemma HeadPrecedesInserted<T>(x: T, s: seq<T>, key: T -> Key, descending: bool)
    requires s != [] && SortedBy(s, key, descending) && Precedes(s[0], x, key, descending)
    ensures forall k :: 0 <= k < |InsertBy(x, s[1..], key, descending)| ==>
      Precedes(s[0], InsertBy(x, s[1..], key, descending)[k], key, descending)
  {
    var t := InsertBy(x, s[1..], key, descending);
    forall k | 0 <= k < |t| ensures Precedes(s[0], t[k], key, descending) {
      assert t[k] in multiset(t);
      if t[k] != x {
        assert t[k] in multiset(s[1..]);
        var m :| 0 <= m < |s[1..]| && s[1..][m] == t[k];
        assert s[m + 1] == t[k];
      }
    }
  }

  /** The sort leaves its results in sort-descriptor order. */
  lemma {:induction false} SortBySorted<T>(s: seq<T>, key: T -> Key, descending: bool)
    ensures SortedBy(SortBy(s, key, descending), key, descending)
    decreases |s|
  {
    if s != [] {
      SortBySorted(s[1..], key, descending);
      InsertBySorted(s[0], SortBy(s[1..], key, descending), key, descending);
    }
  }
}
