/** The earlier chat assistant of src/components/ChatAssistant.tsx: it keeps
    its own input field, applies the blank test itself, sets the listening
    flag directly when toggled, and speaks each reply with a fresh utterance
    without cancelling the previous one. */
module LegacyChatAssistant {
  import opened Wrappers
  import opened Text
  import opened IntentRouter
  import opened MessageLog
  import opened Platform

  /** The calls the reply timer makes to speak `text`: a new utterance,
      without cancelling any other. */
  function SpeakCalls(synthesisSupported: bool, text: string): (calls: seq<PlatformCall>)
  {
    if synthesisSupported then [Speak(text)] else []
  }

  class Assistant {
    const recognitionSupported: bool
    const synthesisSupported: bool

    var messages: seq<Message>
    var input: string
    var isListening: bool
    /** Submitted texts whose reply timer has not fired yet, oldest first. */
    var pending: seq<string>
    /** Every call made into the browser, in order. */
    var calls: seq<PlatformCall>

    ghost predicate Valid()
      reads this
    {
      && Consistent(messages, pending)
      && NoBlankSubmission(messages)
      && (isListening ==> recognitionSupported)
    }

    constructor (recognitionSupported: bool, synthesisSupported: bool)
      ensures Valid()
      ensures this.recognitionSupported == recognitionSupported
      ensures this.synthesisSupported == synthesisSupported
      ensures messages == [Greeting] && input == "" && pending == [] && calls == []
      ensures !isListening
    {
      this.recognitionSupported := recognitionSupported;
      this.synthesisSupported := synthesisSupported;
      messages, input, pending, calls := [Greeting], "", [], [];
      isListening := false;
      InitialConsistent();
      InitialNoBlank();
    }

    /** `handleInputChange`. */
    method InputChange(value: string)
      modifies this`input
      ensures input == value
    {
      input := value;
    }

    /** `handleSubmit`: a blank input changes nothing; otherwise the untrimmed
        input becomes the newest user message, starts "thinking", and the
        input is cleared. */
    method Submit()
      requires Valid()
      modifies this
      ensures Valid()
      ensures IsBlank(old(input)) ==> messages == old(messages) && input == old(input) && pending == old(pending)
      ensures !IsBlank(old(input)) ==>
        messages == old(messages) + [Message(old(input), true)] && input == "" && pending == old(pending) + [old(input)]
      ensures isListening == old(isListening) && calls == old(calls)
    {
      if IsBlank(input) {
        return;
      }
      Accept(input);
      input := "";
    }

    /** The non-blank branch of `handleSubmit`: the text becomes the newest
        user message and starts "thinking". */
    method Accept(text: string)
      requires Valid() && !IsBlank(text)
      modifies this`messages, this`pending
      ensures Valid()
      ensures messages == old(messages) + [Message(text, true)] && pending == old(pending) + [text]
    {
      SubmitKeepsConsistent(messages, pending, text);
      AppendKeepsNoBlank(messages, Message(text, true));
      messages, pending := messages + [Message(text, true)], pending + [text];
    }

    /** The oldest reply timer fires. The reply is routed from the text that
        was submitted (captured when the timer was set), not from the cleared
        input; the reply is spoken as a new utterance queued behind any other. */
    method ReplyDue() returns (target: Option<string>)
      requires Valid() && pending != []
      modifies this
      ensures Valid()
      ensures target == Route(old(pending)[0]).target
      ensures messages == old(messages) + [Message(Route(old(pending)[0]).text, false)]
      ensures pending == old(pending)[1..]
      ensures calls == old(calls) + NavigationCalls(target) + SpeakCalls(synthesisSupported, Route(old(pending)[0]).text)
      ensures synthesisSupported ==> Queued(calls) == Queued(old(calls)) + [Route(old(pending)[0]).text]
      ensures input == old(input) && isListening == old(isListening)
    {
      var reply := Route(pending[0]);
      target := reply.target;
      var navigation := NavigationCalls(target);
      QueuedSilent(calls, navigation);
      if synthesisSupported {
        SpeakQueues(calls + navigation, reply.text);
      }
      calls := calls + navigation + SpeakCalls(synthesisSupported, reply.text);
      Answer();
    }

    /** The log side of a reply: the reply to the oldest pending text is
        appended and that text stops "thinking". */
    method Answer()
      requires Valid() && pending != []
      modifies this`messages, this`pending
      ensures Valid()
      ensures messages == old(messages) + [Message(Route(old(pending)[0]).text, false)]
      ensures pending == old(pending)[1..]
    {
      ReplyKeepsConsistent(messages, pending);
      AppendKeepsNoBlank(messages, Message(Route(pending[0]).text, false));
      messages, pending := messages + [Message(Route(pending[0]).text, false)], pending[1..];
    }

    /** `toggleListening()`: stop and clear the flag, or start and set it.
        Without a recognizer the call throws before changing anything
        (`failed`). */
    method ToggleListening() returns (failed: bool)
      requires Valid()
      modifies this`isListening, this`calls
      ensures Valid()
      ensures failed == !recognitionSupported
      ensures failed ==> isListening == old(isListening) && calls == old(calls)
      ensures !failed ==> isListening == !old(isListening)
      ensures !failed ==> calls == old(calls) + [if old(isListening) then StopCapture else StartCapture]
    {
      if !recognitionSupported {
        return true;
      }
      failed := false;
      if isListening {
        calls := calls + [StopCapture];
        isListening := false;
      } else {
        calls := calls + [StartCapture];
        isListening := true;
      }
    }

    /** The recognizer's `onresult` event: the first result's transcript
        replaces the input. */
    method OnCaptureResult(results: seq<SpeechResult>)
      requires |results| > 0
      modifies this`input
      ensures input == results[0].best
    {
      input := results[0].best;
    }

    /** The recognizer's `onend` event. */
    method OnCaptureEnd()
      requires Valid()
      modifies this`isListening
      ensures Valid() && !isListening
    {
      isListening := false;
    }

    /** The recognition effect's clean-up when the component unmounts. */
    method Unmount()
      modifies this`calls
      ensures calls == old(calls) + (if recognitionSupported then [AbortCapture] else [])
    {
      if recognitionSupported {
        calls := calls + [AbortCapture];
      }
    }
  }
}
