/**
 * `pluralize(_:forms:)`: picks the Russian noun form for a count from the
 * last two decimal digits, with Swift's remainder (which keeps the sign of
 * the dividend).
 */
module Pluralization {

  /** Swift's `%` for a positive divisor: truncating, so a negative dividend gives a remainder <= 0. */
  function SwiftRem(a: int, b: int): (r: int)
    requires b > 0
    ensures -b < r < b
    ensures a >= 0 ==> r == a % b
    ensures a < 0 ==> r <= 0 && r == -((-a) % b)
  {
    if a >= 0 then a % b else -((-a) % b)
  }

  /** `forms` are the forms for one, for a few and for many. */
  function Pluralize(n: int, forms: (string, string, string)): (r: string)
    ensures r == forms.0 || r == forms.1 || r == forms.2
  {
    var mod100 := SwiftRem(n, 100);
    var mod10 := SwiftRem(n, 10);
    if 11 <= mod100 <= 19 then forms.2
    else if mod10 == 1 then forms.0
    else if 2 <= mod10 <= 4 then forms.1
    else forms.2
  }

  /** The plural rule of Russian for non-negative counts, written independently. */
  function RussianForm(n: nat, forms: (string, string, string)): string
  {
    if n % 10 == 1 && n % 100 != 11 then forms.0
    else if 2 <= n % 10 <= 4 && !(12 <= n % 100 <= 14) then forms.1
    else forms.2
  }

  /** For every non-negative count the function picks the form the Russian rule prescribes. */
  lemma PluralizeFollowsRussianRule(n: nat, forms: (string, string, string))
    ensures Pluralize(n, forms) == RussianForm(n, forms)
  {
    LastDigitOfLastTwo(n);
  }

  /** A negative count always takes the form for many. */
  lemma NegativeCountsTakeManyForm(n: int, forms: (string, string, string))
    requires n < 0
    ensures Pluralize(n, forms) == forms.2
  {
  }

  /** Only the last two digits matter. */
  lemma LastTwoDigitsDecide(n: nat, forms: (string, string, string))
    ensures Pluralize(n, forms) == Pluralize(n % 100, forms)
  {
    LastDigitOfLastTwo(n);
  }

  /** The last digit of a count is the last digit of its last two digits. */
  lemma LastDigitOfLastTwo(n: nat)
    ensures (n % 100) % 10 == n % 10
  {
    var k := n / 100;
    assert n == 100 * k + n % 100;
    HundredsKeepLastDigit(n % 100, k);
  }

  lemma {:induction false} HundredsKeepLastDigit(m: nat, k: nat)
    ensures (100 * k + m) % 10 == m % 10
  {
    if k > 0 {
      HundredsKeepLastDigit(m, k - 1);
      assert 100 * k + m == (100 * (k - 1) + m) + 100;
    }
  }
}
