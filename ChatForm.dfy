/** The chat's input form (src/components/chat/ChatForm.tsx): one text field
    whose submission is refused while it holds only whitespace. */
module ChatForm {
  import opened Wrappers
  import opened Text

  class Form {
    var input: string

    constructor ()
      ensures input == ""
    {
      input := "";
    }

    /** `handleInputChange`: the field's value replaces the input. */
    method InputChange(value: string)
      modifies this
      ensures input == value
    {
      input := value;
    }

    /** The send button is disabled exactly while the input is blank. */
    predicate SubmitDisabled()
      reads this
      ensures SubmitDisabled() <==> forall i :: 0 <= i < |input| ==> IsWhitespace(input[i])
    {
      IsBlank(input)
    }

    /** `handleSubmit`: a blank input is kept and nothing is sent; otherwise
        the untrimmed input is handed on once, as `sent`, and the field cleared. */
    method Submit() returns (sent: Option<string>)
      modifies this
      ensures old(SubmitDisabled()) ==> sent == None && input == old(input)
      ensures !old(SubmitDisabled()) ==> sent == Some(old(input)) && input == ""
      ensures sent.Some? ==> exists i :: 0 <= i < |sent.value| && !IsWhitespace(sent.value[i])
    {
      if Trim(input) == "" {
        return None;
      }
      sent := Some(input);
      input := "";
    }
  }
}
