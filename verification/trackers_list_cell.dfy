/**
 * The trackers list cell: its model, and the counter text "N день / дня /
 * дней" it shows, chosen by the cell file's own copy of the plural rule.
 */
module TrackersListCell {
  import opened Base
  import Pluralization

  /** `pluralizedForm(for:forms:)`, the cell file's copy of the plural rule. */
  function PluralizedForm(n: int, forms: (string, string, string)): (r: string)
    ensures r == forms.0 || r == forms.1 || r == forms.2
  {
    var mod100 := Pluralization.SwiftRem(n, 100);
    var mod10 := Pluralization.SwiftRem(n, 10);
    if 11 <= mod100 <= 19 then forms.2
    else if mod10 == 1 then forms.0
    else if 2 <= mod10 <= 4 then forms.1
    else forms.2
  }

  /** The copy agrees with the library's `pluralize` on every count. */
  lemma PluralizedFormIsPluralize(n: int, forms: (string, string, string))
    ensures PluralizedForm(n, forms) == Pluralization.Pluralize(n, forms)
  {
  }

  /** `TrackersListCellModel`. */
  datatype TrackersListCellModel = TrackersListCellModel(
    id: Uuid, title: string, color: Color, emoji: string, count: int, completed: bool, disabled: bool)

  const DayForms: (string, string, string) := ("день", "дня", "дней")

  /** `setCounter`: the count, a space, and the form of "день" the count takes. */
  function CounterText(n: int): (r: string)
    ensures |r| > |IntToString(n)| + 1
    ensures r[..|IntToString(n)| + 1] == IntToString(n) + " "
    ensures r[|IntToString(n)| + 1..] in {"день", "дня", "дней"}
  {
    var prefix := IntToString(n) + " ";
    var r := prefix + PluralizedForm(n, DayForms);
    assert r[..|prefix|] == prefix && r[|prefix|..] == PluralizedForm(n, DayForms);
    r
  }

  /** The digits in front of the space read back as the count. */
  lemma CounterShowsCount(n: nat)
    ensures var r := CounterText(n); var k := |NatToString(n)|;
      (forall i :: 0 <= i < k ==> '0' <= r[i] <= '9') && DigitsValue(r[..k]) == n && r[k] == ' '
  {
    var r := CounterText(n);
    var k := |NatToString(n)|;
    assert r[..k + 1][..k] == r[..k];
    NatToStringRoundTrip(n);
  }

  lemma CounterTextExamples()
    ensures CounterText(1) == "1 день"
    ensures CounterText(3) == "3 дня"
    ensures CounterText(12) == "12 дней"
    ensures CounterText(21) == "21 день"
  {
    assert NatToString(1) == "1";
    assert NatToString(3) == "3";
    assert NatToString(12) == NatToString(1) + [DigitChar(2)] == "12";
    assert PluralizedForm(1, DayForms) == "день";
    assert PluralizedForm(3, DayForms) == "дня";
    assert PluralizedForm(12, DayForms) == "дней";
    assert NatToString(21) == NatToString(2) + [DigitChar(1)] == "21";
    assert PluralizedForm(21, DayForms) == "день";
  }
}
