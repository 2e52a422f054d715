# CLUMOSS site logic in Dafny

A model of the decision logic in the CLUMOSS marketing site's React components. The rest of the site is markup and animation.

- **The chat assistant.** There are two versions, `src/components/chat/ChatAssistant.tsx` with its `ChatForm`, and the earlier `src/components/ChatAssistant.tsx`. The model covers:
  - the keyword intent router, which turns a message into a canned reply and an optional page anchor;
  - the append-only message log, seeded with the greeting;
  - the blank-input guard;
  - the reply that arrives one "thinking" second after a submission;
  - the listening, speaking and voice-response flags;
  - the calls made into the browser's speech recognition, speech synthesis and navigation, recorded as an ordered trace (`Platform.PlatformCall`).
- **The contact form** (`src/components/AIContactForm.tsx`). The model covers the canned suggestion chosen from category, subject and message, the effect that shows it, and the submit/reset cycle.
- **The demo scheduler** (`src/components/Scheduler.tsx`). The model covers the slot and demo tables, the validity test that enables "Schedule Demo", the available-slot guard and the submit/reset cycle.

Timers become explicit steps:

- `ReplyDue` is the chat's 1000 ms reply timer. The timers have equal delays, so they fire in submission order. `pending` holds the texts still waiting for their reply.
- `SuggestionDue` and `Event.SuggestionTimer` are the contact form's 1000 ms suggestion timer.
- `ResetDue` is the 5000 ms reset timer of each form.

Browser facts are parameters:

- whether speech recognition and speech synthesis exist (`recognitionSupported`, `synthesisSupported`);
- the answer to the microphone prompt (`permissionGranted`);
- recognizer and utterance events, which are separate methods.

Both chat assistants contain the same router chain, identical up to the name of the lower-cased variable (`src/components/chat/ChatAssistant.tsx:161-180` and `src/components/ChatAssistant.tsx:79-98`). One function, `IntentRouter.Route`, therefore models both, so the two routers agree on every input by construction. Its independent partner is a priority table of rules searched by `FirstMatch`, and `RouteIsFirstMatch` proves the two equal. The earlier assistant's timer reads `input` from the closure of the render that submitted it, so it routes the submitted text, not the cleared field. `LegacyChatAssistant.Assistant.ReplyDue` routes `pending[0]` to match. In the same way, the newer assistant's timer calls the `speakText` of the submitting render, which reads that render's `speechEnabled`. `ChatAssistant.Assistant` therefore records the voice flag with each pending reply (`pendingVoice`). A reply is spoken if voice responses were on when it was submitted, even if they have been turned off since.

The central invariant is `MessageLog.Consistent`, kept by both assistants. The log starts with the greeting, and the pending texts are the newest user messages. After the greeting, the assistant's messages are the router's replies to the answered user messages, one for one and in order. So each delayed reply answers its own submission.

## Model

| member | source | states |
|---|---|---|
| `Text.Trim` | src/components/chat/ChatForm.tsx:22 | `trim()` is no longer than its input, begins and ends with non-whitespace, and is empty exactly when every character is ECMAScript whitespace |
| `Text.TrimIsSlice` | src/components/chat/ChatForm.tsx:22 | `trim()` is a slice of the input with only whitespace before and after it: exactly the leading and trailing whitespace is removed |
| `Text.ToLower` | src/components/chat/ChatAssistant.tsx:161 | lower-casing keeps the length and lower-cases each character in place |
| `Text.IncludesIff` | src/components/chat/ChatAssistant.tsx:164 | `includes` holds exactly when the pattern occurs at some index of the text |
| `IntentRouter.FirstMatch` | src/components/chat/ChatAssistant.tsx:164-180 | the index found is a rule that fires, and no earlier rule fires; none found means no rule fires |
| `IntentRouter.RouteIsFirstMatch` | src/components/chat/ChatAssistant.tsx:161-180 | the if/else chain equals the first-match search over the table about → subsidiaries → contact → schedule → domains, with the fallback last |
| `IntentRouter.RouteSelectsRule` | src/components/chat/ChatAssistant.tsx:164-177 | rule k answers iff one of its keywords occurs in the lower-cased input and no keyword of an earlier rule does (both directions) |
| `IntentRouter.RouteFallback` | src/components/ChatAssistant.tsx:96-98 | the "Thank you for your message…" reply is given iff no keyword rule fires |
| `IntentRouter.RouteNavigation` | src/components/chat/ChatAssistant.tsx:164-180 | no navigation iff the About rule fires or no rule fires; otherwise the target is the anchor of the keyword rule that answered |
| `IntentRouter.RouteIgnoresCase` | src/components/chat/ChatAssistant.tsx:161 | inputs that differ only in ASCII letter case get the same reply |
| `IntentRouter.KeywordFires` | src/components/chat/ChatAssistant.tsx:161-177 | a keyword in any case, with any text around it, makes its rule fire |
| `IntentRouter.AboutAnywhere` | src/components/chat/ChatAssistant.tsx:164-165 | any input containing "about" gets the About reply, whatever else it contains |
| `IntentRouter.AboutBeforeContact` | src/components/chat/ChatAssistant.tsx:164-171 | "tell me about how to contact you" gets the About reply and no navigation |
| `IntentRouter.DemoAnywhere` | src/components/chat/ChatAssistant.tsx:172-174 | "DEMO" in capitals routes to `#schedule` when no keyword of the first three rules occurs |
| `IntentRouter.FallbackExample` | src/components/ChatAssistant.tsx:96-98 | "xyz123" gets the fallback reply and no navigation |
| `Platform.TranscriptAppend` | src/components/chat/ChatAssistant.tsx:35-38 | the transcript of concatenated result lists is the concatenation of their transcripts (every first alternative, in order) |
| `Platform.CancelThenSpeak` | src/components/chat/ChatAssistant.tsx:113-118 | cancelling before speaking leaves exactly the new utterance queued: the last call wins |
| `Platform.SpeakQueues` | src/components/ChatAssistant.tsx:105-110 | speaking without a cancel queues the utterance behind the earlier ones |
| `MessageLog.InitialConsistent` | src/components/chat/ChatAssistant.tsx:13-15 | the log holding only the greeting, with nothing pending, is consistent |
| `MessageLog.SubmitKeepsConsistent` | src/components/chat/ChatAssistant.tsx:152-155 | appending a user message and queueing its text keeps the log consistent |
| `MessageLog.ReplyKeepsConsistent` | src/components/chat/ChatAssistant.tsx:158-184 | appending the router's reply to the oldest pending text, and dequeuing it, keeps the log consistent |
| `MessageLog.AllAnswered` | src/components/chat/ChatAssistant.tsx:152-188 | with nothing pending there is one assistant message per user message plus the greeting |
| `MessageLog.InitialNoBlank` | src/components/ChatAssistant.tsx:14-16 | the initial log holds no blank user message |
| `MessageLog.AppendKeepsNoBlank` | src/components/ChatAssistant.tsx:68-72 | appending a non-blank user message or any assistant message keeps every user message non-blank |
| `ChatAssistant.Assistant.constructor` | src/components/chat/ChatAssistant.tsx:13-18 | the log is the greeting alone and nothing is pending; not listening, not speaking, voice on; without recognition, "not supported" is toasted |
| `ChatAssistant.Assistant.Submit` | src/components/chat/ChatAssistant.tsx:152-155 | the user message is appended at once; its text is queued together with the current voice flag; the flags and the trace are unchanged |
| `ChatAssistant.Assistant.ReplyDue` | src/components/chat/ChatAssistant.tsx:158-188 | the oldest queued text is routed; navigation, then the append of the reply, then speakText of it under the voice flag captured at submission, leaving only the reply queued when that flag was on; the log stays consistent |
| `ChatAssistant.Assistant.SpeakText` | src/components/chat/ChatAssistant.tsx:110-119 | given the voice flag of the render that made the call: no call when that flag is off or synthesis is missing; otherwise cancel then speak, leaving only the new text queued |
| `ChatAssistant.VoiceOffReplySpoken` | src/components/chat/ChatAssistant.tsx:99-119 | for any text: submitted with voice on, voice then turned off, and the reply is still cancelled-and-spoken after the "turned off" notice |
| `ChatAssistant.VoiceOnReplySilent` | src/components/chat/ChatAssistant.tsx:152-188 | for any text: submitted with voice off, voice then turned on, and the reply makes no speech call |
| `ChatAssistant.Assistant.ToggleSpeech` | src/components/chat/ChatAssistant.tsx:99-108 | voice responses flip; speech in progress is cancelled and the speaking flag cleared; the on/off toast follows |
| `ChatAssistant.Assistant.ToggleListening` | src/components/chat/ChatAssistant.tsx:121-150 | with no recognizer, "not supported" and no state change; while listening, stop; with permission, cancel speech (voice on) before start; refused, "Microphone access denied" |
| `ChatAssistant.Assistant.OnCaptureStart` | src/components/chat/ChatAssistant.tsx:30-32 | the recognizer starting sets the listening flag |
| `ChatAssistant.Assistant.OnCaptureEnd` | src/components/chat/ChatAssistant.tsx:49-51 | the recognizer ending clears the listening flag |
| `ChatAssistant.Assistant.OnCaptureError` | src/components/chat/ChatAssistant.tsx:53-61 | an error clears the listening flag; `not-allowed` toasts the access-denied notice, any other code the generic failure |
| `ChatAssistant.Assistant.OnUtteranceStart` | src/components/chat/ChatAssistant.tsx:92 | an utterance starting sets the speaking flag |
| `ChatAssistant.Assistant.OnUtteranceEnd` | src/components/chat/ChatAssistant.tsx:93-94 | an utterance ending or failing clears the speaking flag |
| `ChatAssistant.Assistant.Unmount` | src/components/chat/ChatAssistant.tsx:66-74 | unmounting aborts recognition and cancels speech, where present |
| `ChatForm.Form.constructor` | src/components/chat/ChatForm.tsx:14 | the input starts empty |
| `ChatForm.Form.InputChange` | src/components/chat/ChatForm.tsx:16-18 | typing replaces the input with the field's value |
| `ChatForm.Form.SubmitDisabled` | src/components/chat/ChatForm.tsx:64 | the send button is disabled exactly when the input is all whitespace |
| `ChatForm.Form.Submit` | src/components/chat/ChatForm.tsx:20-25 | a blank input sends nothing and stays; otherwise the untrimmed input is sent once and the field cleared |
| `ChatWidget.Widget.constructor` | src/components/chat/ChatAssistant.tsx:235-239 | a fresh form with empty input and a fresh assistant with the greeting alone and nothing pending |
| `ChatWidget.Widget.Submit` | src/components/chat/ChatAssistant.tsx:235-239 | a blank input leaves log, queue and input unchanged; otherwise one user message with the untrimmed text is appended, queued with the current voice flag, and the input cleared; the listening, speaking and voice flags and the trace are unchanged; no user message in the log is ever blank |
| `ChatWidget.Widget.OnCaptureResult` | src/components/chat/ChatAssistant.tsx:34-47 | the intended effect of the handler: the transcript of all results replaces the form's input |
| `LegacyChatAssistant.Assistant.constructor` | src/components/ChatAssistant.tsx:13-18 | the log is the greeting alone, the input empty, not listening |
| `LegacyChatAssistant.Assistant.InputChange` | src/components/ChatAssistant.tsx:52-54 | typing replaces the input |
| `LegacyChatAssistant.Assistant.Submit` | src/components/ChatAssistant.tsx:66-75 | a blank input changes neither log nor input; otherwise the untrimmed input is appended and queued, and the input cleared |
| `LegacyChatAssistant.Assistant.ReplyDue` | src/components/ChatAssistant.tsx:76-111 | the submitted text, not the cleared input, is routed; navigation, the append of the reply, then a new utterance queued without a cancel |
| `LegacyChatAssistant.Assistant.ToggleListening` | src/components/ChatAssistant.tsx:56-64 | the listening flag flips, with stop when turning off and start when turning on; without a recognizer the handler throws and nothing changes |
| `LegacyChatAssistant.Assistant.OnCaptureResult` | src/components/ChatAssistant.tsx:30-33 | the first result's transcript replaces the input (no appending) |
| `LegacyChatAssistant.Assistant.OnCaptureEnd` | src/components/ChatAssistant.tsx:35-37 | the recognizer ending clears the listening flag |
| `LegacyChatAssistant.Assistant.Unmount` | src/components/ChatAssistant.tsx:40-44 | unmounting aborts recognition, if present |
| `ContactForm.Suggest` | src/components/AIContactForm.tsx:57-79 | the suggestion is always one of the six fixed strings |
| `ContactForm.ClientSuggestion` | src/components/AIContactForm.tsx:63-70 | client: under 50 characters asks for details even if price words occur; otherwise the quote iff "price" is in the subject or "cost"/"pricing" is in the message, the thank-you iff not |
| `ContactForm.SuggestionFixedOutsideClient` | src/components/AIContactForm.tsx:71-77 | demo, intern and support get their fixed suggestion whatever the subject and message |
| `ContactForm.SuggestionIgnoresCase` | src/components/AIContactForm.tsx:60-66 | the suggestion ignores ASCII letter case in subject and message |
| `ContactForm.AsWrittenEffectClears` | src/components/AIContactForm.tsx:52-88 | as written, a run of the effect leaves no timer and shows no new suggestion |
| `ContactForm.AsWrittenNeverSuggests` | src/components/AIContactForm.tsx:52-88 | as written, no sequence of edits and timer firings ever shows a suggestion |
| `ContactForm.AsWrittenStuckAnalyzing` | src/components/AIContactForm.tsx:52-88 | as written, a subject, a message and a timer firing leave the form "analyzing", with no suggestion |
| `ContactForm.InitialCoherent` | src/components/AIContactForm.tsx:14-21 | the initial form satisfies the effect's invariant |
| `ContactForm.StepKeepsCoherent` | src/components/AIContactForm.tsx:52-88 | every edit or timer step keeps the invariant: analyzing iff a timer is pending; a pending timer holds the current content; an empty field means no suggestion |
| `ContactForm.RunKeepsCoherent` | src/components/AIContactForm.tsx:52-88 | any sequence of steps keeps that invariant |
| `ContactForm.SuggestionMatchesContent` | src/components/AIContactForm.tsx:57-81 | when the timer fires, the suggestion shown is the one for the current category, subject and message, and analysis ends |
| `ContactForm.CorrectedShowsSuggestion` | src/components/AIContactForm.tsx:52-88 | with the corrected effect, the same three steps show the details suggestion |
| `ContactForm.Form.constructor` | src/components/AIContactForm.tsx:14-21 | category client, every field and the suggestion empty, not analyzing, not submitted |
| `ContactForm.Form.RunEffect` | src/components/AIContactForm.tsx:52-88 | one run of the corrected effect |
| `ContactForm.Form.EditName` | src/components/AIContactForm.tsx:245 | the name field takes the typed value |
| `ContactForm.Form.EditEmail` | src/components/AIContactForm.tsx:258 | the email field takes the typed value |
| `ContactForm.Form.EditSubject` | src/components/AIContactForm.tsx:272 | the subject takes the typed value; the effect runs if it changed |
| `ContactForm.Form.EditMessage` | src/components/AIContactForm.tsx:284 | the message takes the typed value; the effect runs if it changed |
| `ContactForm.Form.PickCategory` | src/components/AIContactForm.tsx:226 | the category is replaced; the effect runs if it changed |
| `ContactForm.Form.SuggestionDue` | src/components/AIContactForm.tsx:57-81 | the timer shows `Suggest` of the current content and ends analysis |
| `ContactForm.Form.Submit` | src/components/AIContactForm.tsx:90-102 | the form is marked submitted and a reset is scheduled |
| `ContactForm.Form.ResetDue` | src/components/AIContactForm.tsx:104-111 | category back to client; name, email, subject and message empty; submitted cleared; the emptied fields clear the suggestion |
| `Scheduler.UnavailableSlots` | src/components/Scheduler.tsx:31-40 | exactly slots 3 (11:00 AM) and 6 (02:00 PM) are unavailable; slot ids are 1 to 8 in order |
| `Scheduler.Scheduler.constructor` | src/components/Scheduler.tsx:22-28 | nothing selected, text fields empty, not submitted; the form is invalid |
| `Scheduler.Scheduler.PickDate` | src/components/Scheduler.tsx:155 | the picked date, or none when cleared, replaces the selection |
| `Scheduler.Scheduler.PickSlot` | src/components/Scheduler.tsx:181 | an available slot is selected; a click on an unavailable one changes nothing; a selected slot is always available |
| `Scheduler.Scheduler.PickDemo` | src/components/Scheduler.tsx:133 | the clicked demo replaces any earlier choice |
| `Scheduler.Scheduler.EditName` | src/components/Scheduler.tsx:202 | the name field takes the typed value |
| `Scheduler.Scheduler.EditEmail` | src/components/Scheduler.tsx:214 | the email field takes the typed value |
| `Scheduler.Scheduler.EditCompany` | src/components/Scheduler.tsx:226 | the company field takes the typed value |
| `Scheduler.Scheduler.Submit` | src/components/Scheduler.tsx:51-63 | only a valid form can be submitted, because the button is disabled otherwise (:237); the booking is marked submitted and a reset scheduled; the entered data is untouched and stays valid |
| `Scheduler.Scheduler.ResetDue` | src/components/Scheduler.tsx:66-77 | submitted cleared, selections none, text fields empty; `IsFormValid` (name, email, date, slot and demo all present, company optional) is then false |
| `Scheduler.SelectedSlotBookable` | src/components/Scheduler.tsx:181 | a selected slot is never 11:00 AM or 02:00 PM |

## Left out

- Browser speech recognition and synthesis, the microphone permission prompt, voice lookup, and the rate, pitch and volume settings. These are foreign platform code. Their outcomes are parameters, and the model's own calls into them are recorded in `calls`.
- The `await` on the microphone prompt in `ChatAssistant.Assistant.ToggleListening` is collapsed into one step. Events that arrive while the prompt is open are not interleaved. If `recognition.start()` throws (it is already running), the source shows the access-denied toast; this case is not modelled.
- The delays themselves: `setTimeout`, `clearTimeout` and the 1000 ms and 5000 ms durations. Each timer is a later step. Chat reply timers all use the same delay, so they fire in the order they were set.
- `Date.now()` message ids. They come from the clock and are not guaranteed unique, so `MessageLog.Message` has no id.
- The DOM lookup and synthetic `input` event that carry a transcript into the chat form (src/components/chat/ChatAssistant.tsx:41-46). `ChatWidget.Widget.OnCaptureResult` models what the handler is evidently meant to do: it writes the transcript into the form's input directly. The source sets `.value` on an input that React controls, then dispatches a plain `input` event. React most likely treats that event as no change (not executed). If so, `handleInputChange` never runs, `input` keeps its old value, and the next render puts the old value back in the field. The model does not capture this.
- Toast styling and `console.log`. Notices are kept only as `Toast` entries in the trace.
- `window.location.href`: the router returns the anchor, and the sessions record a `Navigate` call.
- Opening and closing the chat window (`isOpen`), and scrolling to the newest message.
- Reply timers still pending at unmount are not cancelled by the source. The model has no unmount for them either.
- `Text.ToLower` lower-cases ASCII letters only. JavaScript's `toLowerCase` also folds non-ASCII letters, for example the Kelvin sign to `k`.
- `ContactForm.Suggest` compares the message length counted in code points. JavaScript counts UTF-16 code units, so characters outside the Basic Multilingual Plane count twice in the source.
- The browser's `required` and `type="email"` checks on the contact form, and the date picker's `minDate`. These are browser form validation. The contact form's `handleSubmit` itself checks nothing, and neither does `ContactForm.Form.Submit`. The scheduler's own `disabled={!isFormValid}` on its only submit button is modelled, as the precondition of `Scheduler.Scheduler.Submit`.
- `LegacyChatAssistant.Assistant.OnCaptureResult` requires at least one result. The browser never fires a result event without one; the source would throw on `results[0]`.
- The starfield, the navigation bars, the page layout, the subsidiary cards, the footer and the type declarations for the date picker. They are markup and animation only.

## Findings

| source | as written | input that shows it | evidently intended | confidence | as-written member | corrected member |
|---|---|---|---|---|---|---|
| src/components/AIContactForm.tsx:52-88 | The effect lists `isTyping` among its dependencies. Its body sets `isTyping` to true when it starts the suggestion timer. The re-render therefore re-runs the effect, whose clean-up clears the timer just started, and the new run sees `isTyping` set and starts nothing. The suggestion never appears, and "AI is analyzing your message..." stays on. | subject "Pricing", message "How much?", then wait one second: the form still shows "analyzing" with no suggestion, where the details suggestion was due | One second after the last edit of a non-empty subject and message, show the suggestion for the current category, subject and message. Each edit restarts the timer, and emptying a field clears both the suggestion and the analyzing flag. | high (not executed) | `ContactForm.AsWrittenNeverSuggests` | `ContactForm.SuggestionMatchesContent` |
