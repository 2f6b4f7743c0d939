/** The message box of the full-page chat. */
module ChatInput {
  import opened Common

  /** The four hint buttons under the box. */
  const HintTexts: seq<string> := ["Create task", "Schedule meeting", "Show insights", "Organize tasks"]

  /** The send button is disabled exactly when there is nothing to send or
      the whole input is disabled. */
  predicate SendDisabled(message: string, disabled: bool)
  {
    Trim(message) == "" || disabled
  }

  /** The button's rule is the blank test. */
  lemma SendDisabledIffBlank(message: string, disabled: bool)
    ensures SendDisabled(message, disabled) <==> IsBlank(message) || disabled
  {
    TrimEmptyIffBlank(message);
  }

  /** Whether a key press submits: Enter without Shift. */
  predicate SubmitsOnKey(key: string, shiftKey: bool)
  {
    key == "Enter" && !shiftKey
  }

  class ChatInput {
    var message: string

    constructor ()
      ensures message == ""
    {
      message := "";
    }

    method Type(value: string)
      modifies this
      ensures message == value
    {
      message := value;
    }

    /** `handleSubmit`: when the send button would be enabled, the trimmed
        text is sent and the box is cleared; otherwise nothing happens. */
    method Submit(disabled: bool) returns (sent: Option<string>)
      modifies this
      ensures SendDisabled(old(message), disabled) ==> sent == None && message == old(message)
      ensures !SendDisabled(old(message), disabled) ==>
        sent == Some(Trim(old(message))) && message == ""
      ensures sent.Some? ==> sent.value != "" && !IsSpace(sent.value[0]) && !IsSpace(sent.value[|sent.value| - 1])
    {
      var text := Trim(message);
      if text == "" || disabled {
        sent := None;
        return;
      }
      TrimShape(message);
      sent := Some(text);
      message := "";
    }

    /** `handleKeyPress`: Enter without Shift submits; any other key,
        Shift+Enter included, leaves the box alone. */
    method KeyPress(key: string, shiftKey: bool, disabled: bool) returns (sent: Option<string>)
      modifies this
      ensures !SubmitsOnKey(key, shiftKey) ==> sent == None && message == old(message)
      ensures SubmitsOnKey(key, shiftKey) && SendDisabled(old(message), disabled) ==>
        sent == None && message == old(message)
      ensures SubmitsOnKey(key, shiftKey) && !SendDisabled(old(message), disabled) ==>
        sent == Some(Trim(old(message))) && message == ""
    {
      sent := None;
      if SubmitsOnKey(key, shiftKey) {
        sent := Submit(disabled);
      }
    }

    /** A hint button replaces the text with the hint; it sends nothing and,
        like every control here, does nothing while disabled. */
    method Hint(i: nat, disabled: bool)
      requires i < |HintTexts|
      modifies this
      ensures message == (if disabled then old(message) else HintTexts[i])
    {
      if !disabled {
        message := HintTexts[i];
      }
    }
  }
}
