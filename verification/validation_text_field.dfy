/**
 * The name field's validation: a required, length-limited text whose error
 * message is shown under the field; the delegate hears about the error
 * state only when it changes.
 */
module ValidationTextField {
  import opened Base

  const RequiredMessage: string := "Обязательное поле"
  const MaxLengthMessage: string := "Ограничение 38 символов"

  /** `ValidationConfig`. */
  datatype ValidationConfig = ValidationConfig(required: bool, maxLength: int)

  /** The configuration every wrapper starts with. */
  const DefaultConfig: ValidationConfig := ValidationConfig(true, 38)

  /**
   * `validate`: the required message for an empty value when a value is
   * required, else the length message for a value longer than the limit,
   * else no error.
   */
  function Validate(config: ValidationConfig, value: string): (r: Option<string>)
    ensures config.required && value == [] ==> r == Some(RequiredMessage)
    ensures !(config.required && value == []) && |value| > config.maxLength ==> r == Some(MaxLengthMessage)
    ensures r.None? <==> !(config.required && value == []) && |value| <= config.maxLength
  {
    var required := if config.required && |value| == 0 then Some(RequiredMessage) else None;
    var maxLength := if |value| > config.maxLength then Some(MaxLengthMessage) else None;
    if required.Some? then required else maxLength
  }

  /** With the default configuration a value is accepted exactly when it has 1 to 38 characters. */
  lemma DefaultAcceptsOneToThirtyEight(value: string)
    ensures Validate(DefaultConfig, value).None? <==> 1 <= |value| <= 38
    ensures |value| > 38 ==> Validate(DefaultConfig, value) == Some(MaxLengthMessage)
  {
  }

  /** Notifications alternate, starting from "no error", and the last one is the current state. */
  predicate Alternating(notifications: seq<bool>, hasError: bool)
  {
    (forall i :: 0 <= i < |notifications| ==> notifications[i] == (i % 2 == 1))
    && hasError == (|notifications| % 2 == 0)
  }

  class ValidationTextFieldWrapper {
    var validation: ValidationConfig
    /** `hasError`. */
    var hasError: bool
    /** The error label: hidden or not, and its text. */
    var errorHidden: bool
    var errorText: Option<string>
    /** The values passed to the delegate's `onError`, oldest first. */
    var notifications: seq<bool>
    /** How many times the delegate's `textFieldShouldReturn` was called. */
    var returnCount: nat

    ghost predicate Valid()
      reads this
    {
      Alternating(notifications, hasError)
    }

    constructor ()
      ensures Valid()
      ensures validation == DefaultConfig && hasError && errorHidden && errorText.None?
      ensures notifications == [] && returnCount == 0
    {
      validation := DefaultConfig;
      hasError := true;
      errorHidden := true;
      errorText := None;
      notifications := [];
      returnCount := 0;
    }

    /**
     * `updateErrorState`: the label shows the error; the delegate is told
     * the new state only when it differs from the stored one.
     */
    method UpdateErrorState(error: Option<string>)
      requires Valid()
      modifies this
      ensures Valid()
      ensures hasError == error.Some? && errorHidden == error.None? && errorText == error
      ensures old(hasError) != hasError ==> notifications == old(notifications) + [hasError]
      ensures old(hasError) == hasError ==> notifications == old(notifications)
      ensures validation == old(validation) && returnCount == old(returnCount)
    {
      var newHasError := error.Some?;
      errorHidden := !newHasError;
      errorText := error;
      if hasError != newHasError {
        hasError := newHasError;
        notifications := notifications + [newHasError];
      }
    }

    /** `didValueChanged`: the field's text (empty when it has none) is validated. */
    method DidValueChanged(text: Option<string>)
      requires Valid()
      modifies this
      ensures Valid()
      ensures errorText == Validate(validation, if text.Some? then text.value else "")
      ensures hasError <==> errorText.Some?
      ensures |notifications| <= |old(notifications)| + 1 && validation == old(validation)
    {
      UpdateErrorState(Validate(validation, if text.Some? then text.value else ""));
    }

    /** `textFieldShouldClear`: the empty text is validated, and clearing is allowed. */
    method TextFieldShouldClear() returns (allow: bool)
      requires Valid()
      modifies this
      ensures Valid()
      ensures allow
      ensures errorText == Validate(validation, "")
      ensures validation.required ==> hasError && errorText == Some(RequiredMessage)
      ensures validation == old(validation)
    {
      UpdateErrorState(Validate(validation, ""));
      allow := true;
    }

    /** `textFieldShouldReturn`: the delegate is told, and returning is allowed. */
    method TextFieldShouldReturn() returns (allow: bool)
      modifies this
      ensures allow && returnCount == old(returnCount) + 1
      ensures hasError == old(hasError) && notifications == old(notifications) && errorText == old(errorText)
      ensures validation == old(validation) && errorHidden == old(errorHidden)
    {
      returnCount := returnCount + 1;
      allow := true;
    }
  }
}
