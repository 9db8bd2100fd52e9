/**
 * The prompt dialog: a text field with an optional validator. Submitting
 * either shows the validator's message and stays open, or confirms the value
 * and closes; typing clears a shown message.
 */
module PromptDialog {
  import opened Wrappers
  import opened ModalStore

  const DefaultConfirmText: string := "Aceptar"
  const DefaultCancelText: string := "Cancelar"

  /** A submit is refused when the validator returns a message that is truthy, that is, not empty. */
  predicate Refuses(validate: Option<string -> Option<string>>, value: string)
  {
    validate.Some? && validate.value(value).Some? && validate.value(value).value != ""
  }

  /** What submitting asks of the host: nothing when refused, otherwise confirm with the value and close. */
  function SubmitCalls(value: string, validate: Option<string -> Option<string>>): (calls: seq<PropCall>)
    ensures calls == [] <==> Refuses(validate, value)
    ensures !Refuses(validate, value) ==> calls == [ConfirmProp(Some(value)), CloseProp]
  {
    if Refuses(validate, value) then [] else [ConfirmProp(Some(value)), CloseProp]
  }

  /** Without a validator every value is confirmed, the empty one included. */
  lemma NoValidatorConfirms(value: string)
    ensures SubmitCalls(value, None) == [ConfirmProp(Some(value)), CloseProp]
  {
  }

  /** A validator that answers with an empty message does not refuse: the empty string is falsy. */
  lemma EmptyMessageConfirms(value: string, validate: string -> Option<string>)
    requires validate(value) == Some("")
    ensures SubmitCalls(value, Some(validate)) == [ConfirmProp(Some(value)), CloseProp]
  {
  }

  /** The dialog's own state: the text in the field and the message shown under it. */
  class PromptState {
    var value: string
    var error: Option<string>

    /** A message is only ever set from a refusal, so a set message is never empty. */
    predicate Valid()
      reads this
    {
      error.None? || error.value != ""
    }

    /** The first render: the default value (the empty string when none) and no message. */
    constructor(defaultValue: Option<string>)
      ensures value == defaultValue.GetOr("") && error.None?
      ensures Valid()
    {
      value := defaultValue.GetOr("");
      error := None;
    }

    /** Opening the dialog again resets the field and clears the message. */
    method Open(defaultValue: Option<string>)
      modifies this
      ensures value == defaultValue.GetOr("") && error.None?
      ensures Valid()
    {
      value := defaultValue.GetOr("");
      error := None;
    }

    /** Submitting the form; the value itself never changes here. */
    method HandleSubmit(validate: Option<string -> Option<string>>) returns (calls: seq<PropCall>)
      modifies this
      ensures calls == SubmitCalls(old(value), validate)
      ensures value == old(value)
      ensures error == (if Refuses(validate, value) then validate.value(value) else old(error))
      ensures old(Valid()) ==> Valid()
    {
      if validate.Some? {
        var validationError := validate.value(value);
        if validationError.Some? && validationError.value != "" {
          error := validationError;
          return [];
        }
      }
      calls := [ConfirmProp(Some(value)), CloseProp];
    }

    /** Typing replaces the value and clears a shown message; an empty one is left as it is. */
    method HandleChange(newValue: string)
      modifies this
      ensures value == newValue
      ensures error == (if old(error).Some? && old(error).value != "" then None else old(error))
      ensures old(Valid()) ==> error.None?
    {
      value := newValue;
      if error.Some? && error.value != "" {
        error := None;
      }
    }
  }
}
