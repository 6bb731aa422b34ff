/**
 * The chat input box (`ChatInput`): a text buffer that is sent, trimmed,
 * on submit or on Enter, unless it is blank or the input is disabled.
 */
module ChatInput {
  import opened Wrappers
  import opened Text

  /**
   * What a submit sends for buffer `buffer` while the input is `disabled`:
   * the trimmed buffer when it is not blank and the input is enabled, and
   * nothing otherwise. What is sent is never empty and neither starts nor
   * ends with white space.
   */
  function Submission(buffer: string, disabled: bool): (sent: Option<string>)
    ensures sent.Some? <==> !IsBlank(buffer) && !disabled
    ensures sent.Some? ==> sent.value == Trim(buffer)
    ensures sent.Some? ==> |sent.value| > 0
    ensures sent.Some? ==> !IsWhitespace(sent.value[0]) && !IsWhitespace(sent.value[|sent.value| - 1])
  {
    var t := Trim(buffer);
    if t != "" && !disabled then Some(t) else None
  }

  /** The send button's `disabled` attribute: the buffer trims to nothing, or the input is disabled. */
  function SendButtonDisabled(buffer: string, disabled: bool): bool {
    Trim(buffer) == "" || disabled
  }

  /** The send button is disabled exactly when a submit would send nothing. */
  lemma SendButtonMatchesGuard(buffer: string, disabled: bool)
    ensures SendButtonDisabled(buffer, disabled) <==> Submission(buffer, disabled).None?
  {
  }

  /** A key press submits only for Enter without Shift. */
  predicate SubmitsOnKey(key: string, shiftKey: bool) {
    key == "Enter" && !shiftKey
  }

  class Input {
    /** The text typed so far (the `message` state). */
    var message: string

    constructor ()
      ensures message == ""
    {
      message := "";
    }

    /** The textarea's `onChange`: the buffer becomes what was typed. */
    method OnChange(value: string)
      modifies this
      ensures message == value
    {
      message := value;
    }

    /**
     * `handleSubmit`: hands the trimmed buffer to `onSendMessage` (the
     * result) when the guard passes, and then clears the buffer; a
     * rejected submit sends nothing and leaves the buffer as it was.
     */
    method HandleSubmit(disabled: bool) returns (sent: Option<string>)
      modifies this
      ensures sent == Submission(old(message), disabled)
      ensures message == if sent.Some? then "" else old(message)
    {
      var trimmed := Trim(message);
      if trimmed != "" && !disabled {
        sent := Some(trimmed);
        message := "";
      } else {
        sent := None;
      }
    }

    /** `handleKeyPress`: Enter without Shift submits; every other key (Shift+Enter makes a new line) does not. */
    method HandleKeyPress(key: string, shiftKey: bool, disabled: bool) returns (sent: Option<string>)
      modifies this
      ensures SubmitsOnKey(key, shiftKey) ==> sent == Submission(old(message), disabled)
      ensures !SubmitsOnKey(key, shiftKey) ==> sent == None
      ensures message == if sent.Some? then "" else old(message)
    {
      if key == "Enter" && !shiftKey {
        sent := HandleSubmit(disabled);
      } else {
        sent := None;
      }
    }
  }
}
