/** The chat assistant of src/components/chat/ChatAssistant.tsx: the message
    log, the replies still "thinking", the listening/speaking/voice flags, and
    the calls it makes into the browser. The browser's speech capabilities are
    fixed at construction; permission prompts and recognition/synthesis events
    arrive as method calls; each 1000 ms reply timer becomes a `ReplyDue` step
    (timers of equal delay fire in the order they were set). A timer calls
    the `speakText` of the render that set it, so whether its reply is spoken
    depends on the voice flag at submission, which `pendingVoice` records. */
module ChatAssistant {
  import opened Wrappers
  import opened Text
  import opened IntentRouter
  import opened MessageLog
  import opened Platform

  /** The calls `speakText(text)` makes. */
  function SpeakCalls(speechEnabled: bool, synthesisSupported: bool, text: string): (calls: seq<PlatformCall>)
  {
    if speechEnabled && synthesisSupported then [CancelSpeech, Speak(text)] else []
  }

  class Assistant {
    /** The browser offers speech recognition / speech synthesis. */
    const recognitionSupported: bool
    const synthesisSupported: bool

    var messages: seq<Message>
    var isListening: bool
    var isSpeaking: bool
    var speechEnabled: bool
    /** Submitted texts whose reply timer has not fired yet, oldest first. */
    var pending: seq<string>
    /** For each pending reply, whether voice responses were on when it was
        submitted. */
    var pendingVoice: seq<bool>
    /** Every call made into the browser, in order. */
    var calls: seq<PlatformCall>

    ghost predicate Valid()
      reads this
    {
      && Consistent(messages, pending)
      && |pendingVoice| == |pending|
      && (isListening ==> recognitionSupported)
      && (isSpeaking ==> synthesisSupported)
      && |Queued(calls)| <= 1
    }

    /** The component's initial state and its recognition set-up effect. */
    constructor (recognitionSupported: bool, synthesisSupported: bool)
      ensures Valid()
      ensures this.recognitionSupported == recognitionSupported
      ensures this.synthesisSupported == synthesisSupported
      ensures messages == [Greeting] && pending == [] && pendingVoice == []
      ensures !isListening && !isSpeaking && speechEnabled
      ensures calls == if recognitionSupported then [] else [Toast(RecognitionUnsupported)]
    {
      this.recognitionSupported := recognitionSupported;
      this.synthesisSupported := synthesisSupported;
      messages := [Greeting];
      pending, pendingVoice := [], [];
      isListening, isSpeaking, speechEnabled := false, false, true;
      calls := if recognitionSupported then [] else [Toast(RecognitionUnsupported)];
      InitialConsistent();
    }

    /** `handleSubmit(inputText)`: the user's message is appended at once and
        its reply starts "thinking", remembering whether voice responses are on.
        No blank test here: the chat form makes it. */
    method Submit(text: string)
      requires Valid()
      modifies this
      ensures Valid()
      ensures messages == old(messages) + [Message(text, true)]
      ensures pending == old(pending) + [text]
      ensures pendingVoice == old(pendingVoice) + [speechEnabled]
      ensures isListening == old(isListening) && isSpeaking == old(isSpeaking)
      ensures speechEnabled == old(speechEnabled) && calls == old(calls)
    {
      SubmitKeepsConsistent(messages, pending, text);
      messages := messages + [Message(text, true)];
      pending := pending + [text];
      pendingVoice := pendingVoice + [speechEnabled];
    }

    /** The oldest reply timer fires: route the submitted text, navigate,
        append the assistant's reply, then speak it if voice responses were on
        when it was submitted, whatever the flag is now. */
    method ReplyDue() returns (target: Option<string>)
      requires Valid() && pending != []
      modifies this
      ensures Valid()
      ensures target == Route(old(pending)[0]).target
      ensures messages == old(messages) + [Message(Route(old(pending)[0]).text, false)]
      ensures pending == old(pending)[1..] && pendingVoice == old(pendingVoice)[1..]
      ensures calls == old(calls) + NavigationCalls(target) + SpeakCalls(old(pendingVoice)[0], synthesisSupported, Route(old(pending)[0]).text)
      ensures old(pendingVoice)[0] && synthesisSupported ==> Queued(calls) == [Route(old(pending)[0]).text]
      ensures isListening == old(isListening) && isSpeaking == old(isSpeaking) && speechEnabled == old(speechEnabled)
    {
      var reply := Route(pending[0]);
      target := reply.target;
      QueuedSilent(calls, NavigationCalls(target));
      calls := calls + NavigationCalls(target);
      ReplyKeepsConsistent(messages, pending);
      messages := messages + [Message(reply.text, false)];
      var voice := pendingVoice[0];
      pending, pendingVoice := pending[1..], pendingVoice[1..];
      SpeakText(voice, reply.text);
    }

    /** `speakText(text)` of a render whose `speechEnabled` was `voice`:
        nothing when voice responses were off or the browser cannot speak;
        otherwise cancel whatever is being said, then say `text`. A message's
        speaker button uses the current render, so passes the current flag. */
    method SpeakText(voice: bool, text: string)
      requires Valid()
      modifies this`calls
      ensures Valid()
      ensures calls == old(calls) + SpeakCalls(voice, synthesisSupported, text)
      ensures voice && synthesisSupported ==> Queued(calls) == [text]
    {
      if !voice || !synthesisSupported {
        return;
      }
      CancelThenSpeak(calls, text);
      calls := calls + [CancelSpeech, Speak(text)];
    }

    /** `toggleSpeech()`: flip voice responses; speech under way is cancelled. */
    method ToggleSpeech()
      requires Valid()
      modifies this
      ensures Valid()
      ensures speechEnabled == !old(speechEnabled)
      ensures isSpeaking == (old(isSpeaking) && !synthesisSupported)
      ensures calls == old(calls)
        + (if old(isSpeaking) && synthesisSupported then [CancelSpeech] else [])
        + [Toast(if old(speechEnabled) then VoiceOff else VoiceOn)]
      ensures messages == old(messages) && pending == old(pending) && pendingVoice == old(pendingVoice)
      ensures isListening == old(isListening)
    {
      var was := speechEnabled;
      speechEnabled := !speechEnabled;
      if isSpeaking && synthesisSupported {
        calls := calls + [CancelSpeech];
        isSpeaking := false;
      }
      QueuedSilent(calls, [Toast(if was then VoiceOff else VoiceOn)]);
      calls := calls + [Toast(if was then VoiceOff else VoiceOn)];
    }

    /** `toggleListening()`, with the outcome of the microphone permission
        prompt as `permissionGranted`. Listening itself starts and stops with
        the recognizer's events, not here. */
    method ToggleListening(permissionGranted: bool)
      requires Valid()
      modifies this
      ensures Valid()
      ensures !recognitionSupported ==> calls == old(calls) + [Toast(RecognitionUnsupported)]
      ensures recognitionSupported && old(isListening) ==> calls == old(calls) + [StopCapture]
      ensures recognitionSupported && !old(isListening) && permissionGranted ==>
        calls == old(calls) + (if synthesisSupported && speechEnabled then [CancelSpeech] else []) + [StartCapture, Toast(Listening)]
      ensures recognitionSupported && !old(isListening) && !permissionGranted ==>
        calls == old(calls) + [Toast(MicrophoneDenied)]
      ensures messages == old(messages) && pending == old(pending) && pendingVoice == old(pendingVoice)
      ensures isListening == old(isListening) && isSpeaking == old(isSpeaking) && speechEnabled == old(speechEnabled)
    {
      if !recognitionSupported {
        QueuedSilent(calls, [Toast(RecognitionUnsupported)]);
        calls := calls + [Toast(RecognitionUnsupported)];
        return;
      }
      if isListening {
        QueuedSilent(calls, [StopCapture]);
        calls := calls + [StopCapture];
      } else if permissionGranted {
        if synthesisSupported && speechEnabled {
          calls := calls + [CancelSpeech];
        }
        QueuedSilent(calls, [StartCapture, Toast(Listening)]);
        calls := calls + [StartCapture, Toast(Listening)];
      } else {
        QueuedSilent(calls, [Toast(MicrophoneDenied)]);
        calls := calls + [Toast(MicrophoneDenied)];
      }
    }

    /** The recognizer's `onstart` event. */
    method OnCaptureStart()
      requires Valid() && recognitionSupported
      modifies this`isListening
      ensures Valid() && isListening
    {
      isListening := true;
    }

    /** The recognizer's `onend` event. */
    method OnCaptureEnd()
      requires Valid()
      modifies this`isListening
      ensures Valid() && !isListening
    {
      isListening := false;
    }

    /** The recognizer's `onerror` event with its error code. */
    method OnCaptureError(error: string)
      requires Valid()
      modifies this`isListening, this`calls
      ensures Valid() && !isListening
      ensures calls == old(calls) + [Toast(if error == "not-allowed" then MicrophoneDenied else RecognitionFailed)]
    {
      isListening := false;
      QueuedSilent(calls, [Toast(if error == "not-allowed" then MicrophoneDenied else RecognitionFailed)]);
      calls := calls + [Toast(if error == "not-allowed" then MicrophoneDenied else RecognitionFailed)];
    }

    /** The utterance's `onstart` event. */
    method OnUtteranceStart()
      requires Valid() && synthesisSupported
      modifies this`isSpeaking
      ensures Valid() && isSpeaking
    {
      isSpeaking := true;
    }

    /** The utterance's `onend` or `onerror` event. */
    method OnUtteranceEnd()
      requires Valid()
      modifies this`isSpeaking
      ensures Valid() && !isSpeaking
    {
      isSpeaking := false;
    }

    /** The recognition effect's clean-up when the component unmounts. */
    method Unmount()
      requires Valid()
      modifies this`calls
      ensures Valid()
      ensures calls == old(calls) + (if recognitionSupported then [AbortCapture] else [])
                                  + (if synthesisSupported then [CancelSpeech] else [])
    {
      if recognitionSupported {
        QueuedSilent(calls, [AbortCapture]);
        calls := calls + [AbortCapture];
      }
      if synthesisSupported {
        calls := calls + [CancelSpeech];
      }
    }
  }

  /** A reply submitted while voice responses are on is spoken even when
      they are turned off before its timer fires: after the "turned off"
      notice come the reply's navigation, the cancel and the spoken reply. */
  method VoiceOffReplySpoken(text: string) returns (voiceOn: bool, calls: seq<PlatformCall>)
    ensures !voiceOn
    ensures calls == [Toast(VoiceOff)] + NavigationCalls(Route(text).target) + [CancelSpeech, Speak(Route(text).text)]
  {
    var a := new Assistant(true, true);
    a.Submit(text);
    assert a.pendingVoice == [true] && !a.isSpeaking && a.calls == [];
    a.ToggleSpeech();
    assert a.calls == [Toast(VoiceOff)];
    var _ := a.ReplyDue();
    voiceOn, calls := a.speechEnabled, a.calls;
  }

  /** The converse: a reply submitted while voice responses are off stays
      silent even when they are turned on before its timer fires. */
  method VoiceOnReplySilent(text: string) returns (voiceOn: bool, calls: seq<PlatformCall>)
    ensures voiceOn
    ensures calls == [Toast(VoiceOff), Toast(VoiceOn)] + NavigationCalls(Route(text).target)
  {
    var a := new Assistant(true, true);
    a.ToggleSpeech();
    assert a.calls == [Toast(VoiceOff)] && !a.isSpeaking;
    a.Submit(text);
    assert a.pendingVoice == [false];
    a.ToggleSpeech();
    assert a.calls == [Toast(VoiceOff), Toast(VoiceOn)];
    var _ := a.ReplyDue();
    voiceOn, calls := a.speechEnabled, a.calls;
  }
}
