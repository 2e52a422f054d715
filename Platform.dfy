/** What the chat assistants see of the browser: speech-recognition results,
    and the calls they make on speech synthesis, speech recognition, page
    navigation and toast notices, recorded in order as a trace. */
module Platform {
  import opened Wrappers

  /** One recognition result: its first (best) alternative and the rest. */
  datatype SpeechResult = SpeechResult(best: string, others: seq<string>)

  /** The transcript of a recognition event: the first alternative of every
      result, concatenated in order. */
  function Transcript(results: seq<SpeechResult>): (r: string)
  {
    if results == [] then "" else Transcript(results[..|results| - 1]) + results[|results| - 1].best
  }

  /** Splitting the results splits the transcript: no result is dropped,
      repeated or reordered. */
  lemma {:induction false} TranscriptAppend(a: seq<SpeechResult>, b: seq<SpeechResult>)
    ensures Transcript(a + b) == Transcript(a) + Transcript(b)
    decreases |b|
  {
    if b == [] {
      assert a + b == a;
    } else {
      var init := b[..|b| - 1];
      assert (a + b)[..|a + b| - 1] == a + init;
      TranscriptAppend(a, init);
    }
  }

  /** The toast notices the chat assistant shows. */
  datatype Notice =
    | RecognitionUnsupported   // "Speech recognition is not supported in your browser."
    | MicrophoneDenied         // "Microphone access denied. Please enable it in your browser settings."
    | RecognitionFailed        // "Speech recognition failed. Try again later."
    | Listening                // "Listening..."
    | VoiceOff                 // "Voice responses turned off"
    | VoiceOn                  // "Voice responses turned on"

  /** A call into the browser. */
  datatype PlatformCall =
    | CancelSpeech             // speechSynthesis.cancel()
    | Speak(text: string)      // speechSynthesis.speak(utterance with this text)
    | StartCapture             // recognition.start()
    | StopCapture              // recognition.stop()
    | AbortCapture             // recognition.abort()
    | Navigate(anchor: string) // window.location.href = anchor
    | Toast(notice: Notice)

  /** The navigation a routed reply asks for. */
  function NavigationCalls(target: Option<string>): (calls: seq<PlatformCall>)
    ensures forall i :: 0 <= i < |calls| ==> Silent(calls[i])
  {
    match target
    case None => []
    case Some(anchor) => [Navigate(anchor)]
  }

  /** The utterances handed to the synthesizer since it was last cancelled,
      oldest first: what it still has to say, at most. */
  function Queued(calls: seq<PlatformCall>): (r: seq<string>)
  {
    if calls == [] then []
    else
      var init := calls[..|calls| - 1];
      match calls[|calls| - 1]
      case CancelSpeech => []
      case Speak(t) => Queued(init) + [t]
      case _ => Queued(init)
  }

  /** A call that neither speaks nor cancels speech. */
  predicate Silent(call: PlatformCall)
  {
    !call.CancelSpeech? && !call.Speak?
  }

  /** Calls that neither speak nor cancel leave the synthesizer's queue alone. */
  lemma {:induction false} QueuedSilent(calls: seq<PlatformCall>, more: seq<PlatformCall>)
    requires forall i :: 0 <= i < |more| ==> Silent(more[i])
    ensures Queued(calls + more) == Queued(calls)
    decreases |more|
  {
    if more == [] {
      assert calls + more == calls;
    } else {
      var init := more[..|more| - 1];
      assert (calls + more)[..|calls + more| - 1] == calls + init;
      QueuedSilent(calls, init);
    }
  }

  /** Cancelling before speaking leaves exactly the new utterance queued:
      the last call wins. */
  lemma CancelThenSpeak(calls: seq<PlatformCall>, text: string)
    ensures Queued(calls + [CancelSpeech, Speak(text)]) == [text]
  {
    var c := calls + [CancelSpeech, Speak(text)];
    assert c[..|c| - 1] == calls + [CancelSpeech];
    assert (calls + [CancelSpeech])[..|calls|] == calls;
  }

  /** Speaking without cancelling queues the new utterance after the old ones. */
  lemma SpeakQueues(calls: seq<PlatformCall>, text: string)
    ensures Queued(calls + [Speak(text)]) == Queued(calls) + [text]
  {
    assert (calls + [Speak(text)])[..|calls|] == calls;
  }
}
