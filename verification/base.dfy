/**
 * Values every part of the habit tracker shares: optionals, identifiers,
 * colours, calendar days as the app's date formatters see them, the seven
 * weekdays, lower-casing and the decimal rendering of counters.
 */
module Base {

  datatype Option<T> = None | Some(value: T)

  /** A `Foundation.UUID`, abstracted to a number. */
  type Uuid = nat

  /** A `UIColor`; only its identity matters to the model. */
  datatype Color = Color(code: nat)

  /**
   * A `Date` together with what the app's formatters print for it:
   * `moment` is the instant (equal instants are equal dates), `formatted` is
   * the "dd.MM.yy" text records are stored under, and the two weekday fields
   * are the "EEEE" texts for the English and the Russian locale.
   */
  datatype Date = Date(moment: int, formatted: string, weekdayEnglish: string, weekdayRussian: string)

  /** The seven days of the week, in the order of `Weekday.allCases`. */
  datatype Weekday = Monday | Tuesday | Wednesday | Thursday | Friday | Saturday | Sunday

  const AllWeekdays: seq<Weekday> := [Monday, Tuesday, Wednesday, Thursday, Friday, Saturday, Sunday]

  /** The index of a day in `AllWeekdays`. */
  function Position(d: Weekday): (i: nat)
    ensures i < |AllWeekdays| && AllWeekdays[i] == d
  {
    match d
    case Monday => 0
    case Tuesday => 1
    case Wednesday => 2
    case Thursday => 3
    case Friday => 4
    case Saturday => 5
    case Sunday => 6
  }

  lemma AllWeekdaysListsEachDayOnce()
    ensures |AllWeekdays| == 7
    ensures forall d: Weekday :: d in AllWeekdays
    ensures forall i, j :: 0 <= i < j < |AllWeekdays| ==> AllWeekdays[i] != AllWeekdays[j]
  {
    forall d: Weekday ensures d in AllWeekdays {
      var _ := Position(d);
    }
  }

  /**
   * Lower-casing of one character, as `String.lowercased()` does it for the
   * Latin and the basic Cyrillic alphabets (the letters weekday names use).
   */
  function LowerChar(c: char): (r: char)
    ensures 'A' <= c <= 'Z' ==> 'a' <= r <= 'z'
    ensures !('A' <= c <= 'Z') && !('А' <= c <= 'Я') && c != 'Ё' ==> r == c
  {
    if 'A' <= c <= 'Z' then (c as int + 32) as char
    else if 'А' <= c <= 'Я' then (c as int + 32) as char
    else if c == 'Ё' then 'ё'
    else c
  }

  function LowerCased(s: string): (r: string)
    ensures |r| == |s|
    ensures forall i :: 0 <= i < |s| ==> r[i] == LowerChar(s[i])
  {
    if s == [] then [] else [LowerChar(s[0])] + LowerCased(s[1..])
  }

  /** Lower-casing a second time changes nothing. */
  lemma LowerCasedIdempotent(s: string)
    ensures LowerCased(LowerCased(s)) == LowerCased(s)
  {
    var once := LowerCased(s);
    var twice := LowerCased(once);
    forall i | 0 <= i < |s| ensures twice[i] == once[i] {
      var c := s[i];
      assert once[i] == LowerChar(c);
    }
  }

  /** The decimal digits of a natural number, as string interpolation prints it. */
  function NatToString(n: nat): (r: string)
    ensures |r| > 0
    ensures forall i :: 0 <= i < |r| ==> '0' <= r[i] <= '9'
    decreases n
  {
    if n < 10 then [DigitChar(n)] else NatToString(n / 10) + [DigitChar(n % 10)]
  }

  function DigitChar(d: nat): (c: char)
    requires d < 10
    ensures '0' <= c <= '9' && c as int - '0' as int == d
  {
    ('0' as int + d) as char
  }

  /** An `Int` printed by string interpolation: a minus sign before negatives. */
  function IntToString(n: int): (r: string)
    ensures |r| > 0
    ensures n >= 0 ==> r == NatToString(n)
    ensures n < 0 ==> r == "-" + NatToString(-n)
  {
    if n >= 0 then NatToString(n) else "-" + NatToString(-n)
  }

  /** The value of a string of decimal digits; the inverse of `NatToString`. */
  function DigitsValue(s: string): nat
    requires forall i :: 0 <= i < |s| ==> '0' <= s[i] <= '9'
  {
    if s == [] then 0 else DigitsValue(s[..|s| - 1]) * 10 + (s[|s| - 1] as int - '0' as int)
  }

  /** Reading the printed digits back gives the number that was printed. */
  lemma {:induction false} NatToStringRoundTrip(n: nat)
    ensures DigitsValue(NatToString(n)) == n
    decreases n
  {
    var s := NatToString(n);
    if n >= 10 {
      NatToStringRoundTrip(n / 10);
      assert s[..|s| - 1] == NatToString(n / 10);
    }
  }
}
