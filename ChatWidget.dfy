/** The chat widget as src/components/chat/ChatAssistant.tsx assembles it:
    the form's submissions go to the assistant's `handleSubmit`, and
    recognition transcripts are written into the form's input field. */
module ChatWidget {
  import opened Wrappers
  import opened Text
  import opened MessageLog
  import opened Platform
  import ChatForm
  import ChatAssistant

  class Widget {
    const form: ChatForm.Form
    const assistant: ChatAssistant.Assistant

    /** The assistant's invariant, and no user message in the log is blank. */
    ghost predicate Valid()
      reads this, form, assistant
    {
      && assistant.Valid()
      && NoBlankSubmission(assistant.messages)
    }

    constructor (recognitionSupported: bool, synthesisSupported: bool)
      ensures Valid() && fresh(form) && fresh(assistant)
      ensures form.input == "" && assistant.messages == [Greeting] && assistant.pending == [] && assistant.pendingVoice == []
    {
      form := new ChatForm.Form();
      assistant := new ChatAssistant.Assistant(recognitionSupported, synthesisSupported);
      new;
      InitialNoBlank();
    }

    /** The user presses send: a blank input changes nothing; otherwise its
        text becomes the newest user message and the input is cleared. */
    method Submit()
      requires Valid()
      modifies form, assistant
      ensures Valid()
      ensures IsBlank(old(form.input)) ==>
        && form.input == old(form.input) && assistant.messages == old(assistant.messages)
        && assistant.pending == old(assistant.pending) && assistant.pendingVoice == old(assistant.pendingVoice)
      ensures !IsBlank(old(form.input)) ==>
        && form.input == ""
        && assistant.messages == old(assistant.messages) + [Message(old(form.input), true)]
        && assistant.pending == old(assistant.pending) + [old(form.input)]
        && assistant.pendingVoice == old(assistant.pendingVoice) + [assistant.speechEnabled]
      ensures assistant.isListening == old(assistant.isListening) && assistant.isSpeaking == old(assistant.isSpeaking)
      ensures assistant.speechEnabled == old(assistant.speechEnabled) && assistant.calls == old(assistant.calls)
    {
      var sent := form.Submit();
      if sent.Some? {
        assistant.Submit(sent.value);
        AppendKeepsNoBlank(old(assistant.messages), Message(sent.value, true));
      }
    }

    /** The recognizer's `onresult` event, by its intended effect: the
        transcript of all results replaces the form's input. */
    method OnCaptureResult(results: seq<SpeechResult>)
      requires Valid()
      modifies form
      ensures Valid()
      ensures form.input == Transcript(results)
    {
      form.InputChange(Transcript(results));
    }
  }
}
