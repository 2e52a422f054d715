/** The contact form of src/components/AIContactForm.tsx: the canned "AI
    suggestion" chosen from the category, subject and message; the effect
    that shows it one second after the user stops editing; and the
    submit/reset cycle. */
module ContactForm {
  import opened Wrappers
  import opened Text

  datatype Category = Client | Demo | Intern | Support

  const MoreDetails := "Consider providing more details about your business needs and timeline for implementing AI solutions."
  const PricingQuote := "Our team will prepare a customized quote based on your specific requirements. To help us provide accurate pricing, consider mentioning your industry, company size, and specific use cases."
  const ClientThanks := "Thank you for your detailed inquiry. Our team specializes in tailored AI solutions for your industry needs."
  const DemoPreparation := "To prepare the most relevant demonstration, consider sharing which specific CLUMOSS technologies you're interested in and your availability for a live demo session."
  const InternDetails := "Please mention your relevant skills and experience with AI technologies, any academic background in machine learning, and your availability to start an internship."
  const SupportDetails := "For faster technical assistance, please include any error messages you're encountering and the specific CLUMOSS product you're using."

  /** The six suggestions the form can show. */
  const Suggestions: set<string> := {MoreDetails, PricingQuote, ClientThanks, DemoPreparation, InternDetails, SupportDetails}

  /** A client message asks about money: "price" in the subject, or "cost" or
      "pricing" in the message, in any case. */
  predicate AsksAboutPrice(subject: string, message: string)
  {
    Includes(ToLower(subject), "price") || Includes(ToLower(message), "cost") || Includes(ToLower(message), "pricing")
  }

  /** The suggestion for a category, subject and message. */
  function Suggest(category: Category, subject: string, message: string): (r: string)
    ensures r in Suggestions
  {
    match category
    case Client =>
      if |message| < 50 then MoreDetails
      else if AsksAboutPrice(subject, message) then PricingQuote
      else ClientThanks
    case Demo => DemoPreparation
    case Intern => InternDetails
    case Support => SupportDetails
  }

  /** The client suggestions: too short a message asks for details, whatever
      it mentions; a long enough one gets the quote exactly when it asks
      about price, the thank-you otherwise. */
  lemma ClientSuggestion(subject: string, message: string)
    ensures |message| < 50 ==> Suggest(Client, subject, message) == MoreDetails
    ensures Suggest(Client, subject, message) == PricingQuote <==> |message| >= 50 && AsksAboutPrice(subject, message)
    ensures Suggest(Client, subject, message) == ClientThanks <==> |message| >= 50 && !AsksAboutPrice(subject, message)
  {
  }

  /** Outside the client category the suggestion depends on the category only. */
  lemma SuggestionFixedOutsideClient(category: Category, subject: string, message: string, subject': string, message': string)
    requires category != Client
    ensures Suggest(category, subject, message) == Suggest(category, subject', message')
    ensures Suggest(category, subject, message) == match category
      case Demo => DemoPreparation
      case Intern => InternDetails
      case _ => SupportDetails
  {
  }

  /** The suggestion ignores the case of ASCII letters in subject and message. */
  lemma SuggestionIgnoresCase(category: Category, subject: string, message: string, subject': string, message': string)
    requires |subject| == |subject'| && forall i :: 0 <= i < |subject| ==> Lower(subject[i]) == Lower(subject'[i])
    requires |message| == |message'| && forall i :: 0 <= i < |message| ==> Lower(message[i]) == Lower(message'[i])
    ensures Suggest(category, subject, message) == Suggest(category, subject', message')
  {
    assert ToLower(subject) == ToLower(subject');
    assert ToLower(message) == ToLower(message');
  }

  // ---------------------------------------------------------------------------
  // The suggestion effect. React runs it after a render in which one of its
  // dependencies changed, first running the clean-up returned by its previous
  // run (which clears that run's timer).

  /** The inputs a pending suggestion timer computes from. */
  datatype Snapshot = Snapshot(category: Category, subject: string, message: string)

  /** The part of the form's state the suggestion effect reads and writes. */
  datatype Assistance = Assistance(
    category: Category, subject: string, message: string,
    isTyping: bool, suggestion: string, timer: Option<Snapshot>)

  /** What happens to that state. */
  datatype Event =
    | EditSubject(subject: string)
    | EditMessage(message: string)
    | PickCategory(category: Category)
    | SuggestionTimer               // the pending suggestion timer fires
    | ResetFields                   // the reset after a submission: category client, subject and message empty

  const InitialAssistance := Assistance(Client, "", "", false, "", None)

  /** The state change an event makes before any effect runs. */
  function Apply(s: Assistance, e: Event): (r: Assistance)
  {
    match e
    case EditSubject(v) => s.(subject := v)
    case EditMessage(v) => s.(message := v)
    case PickCategory(c) => s.(category := c)
    case ResetFields => s.(category := Client, subject := "", message := "")
    case SuggestionTimer =>
      match s.timer
      case None => s
      case Some(snap) => s.(suggestion := Suggest(snap.category, snap.subject, snap.message), isTyping := false, timer := None)
  }

  // --- As written: the dependencies are (subject, message, category, isTyping)
  // and a timer is only started while isTyping is false.

  function AsWrittenDeps(s: Assistance): (Category, string, string, bool)
  {
    (s.category, s.subject, s.message, s.isTyping)
  }

  /** One run of the effect as written: clean up the previous run, then the
      body. Starting a timer sets isTyping, a dependency, so the re-render
      runs the effect again at once: its clean-up clears the timer just set,
      and its body, finding isTyping set, does nothing more. */
  function AsWrittenEffect(s: Assistance): (r: Assistance)
    decreases if s.isTyping then 0 else 1
  {
    var c := s.(timer := None);
    if c.subject != "" && c.message != "" then
      if !c.isTyping then AsWrittenEffect(c.(isTyping := true, timer := Some(Snapshot(c.category, c.subject, c.message))))
      else c
    else c.(suggestion := "")
  }

  /** A run of the effect as written leaves no timer and shows no new suggestion. */
  lemma AsWrittenEffectClears(s: Assistance)
    ensures AsWrittenEffect(s).timer == None
    ensures AsWrittenEffect(s).suggestion == "" || AsWrittenEffect(s).suggestion == s.suggestion
    decreases if s.isTyping then 0 else 1
  {
    var c := s.(timer := None);
    if c.subject != "" && c.message != "" && !c.isTyping {
      AsWrittenEffectClears(c.(isTyping := true, timer := Some(Snapshot(c.category, c.subject, c.message))));
    }
  }

  function AsWrittenStep(s: Assistance, e: Event): (r: Assistance)
  {
    var t := Apply(s, e);
    if AsWrittenDeps(t) != AsWrittenDeps(s) then AsWrittenEffect(t) else t
  }

  function AsWrittenRun(s: Assistance, events: seq<Event>): (r: Assistance)
    decreases |events|
  {
    if events == [] then s else AsWrittenRun(AsWrittenStep(s, events[0]), events[1..])
  }

  /** As written, no timer survives its own effect run, so no suggestion is
      ever shown, whatever the user does. */
  lemma {:induction false} AsWrittenNeverSuggests(s: Assistance, events: seq<Event>)
    requires s.timer == None && s.suggestion == ""
    ensures AsWrittenRun(s, events).timer == None
    ensures AsWrittenRun(s, events).suggestion == ""
    decreases |events|
  {
    if events != [] {
      var t := AsWrittenStep(s, events[0]);
      AsWrittenEffectClears(Apply(s, events[0]));
      AsWrittenNeverSuggests(t, events[1..]);
    }
  }

  /** A subject, a short client message, one second of waiting: as written the
      form stays "analyzing" with no suggestion, where the suggestion for
      that content is the request for more details. */
  lemma AsWrittenStuckAnalyzing()
    ensures AsWrittenRun(InitialAssistance, [EditSubject("Pricing"), EditMessage("How much?"), SuggestionTimer]).isTyping
    ensures AsWrittenRun(InitialAssistance, [EditSubject("Pricing"), EditMessage("How much?"), SuggestionTimer]).suggestion == ""
    ensures Suggest(Client, "Pricing", "How much?") == MoreDetails
  {
    var events := [EditSubject("Pricing"), EditMessage("How much?"), SuggestionTimer];
    var s1 := AsWrittenStep(InitialAssistance, events[0]);
    var s2 := AsWrittenStep(s1, events[1]);
    var s3 := AsWrittenStep(s2, events[2]);
    assert s2.isTyping && s2.timer == None;
    assert s3 == s2;
    assert events[1..][1..][1..] == [];
  }

  // --- Corrected: the dependencies are (subject, message, category); every
  // run restarts the one-second timer for the current content, and emptying
  // a field also clears the "analyzing" flag.

  function Deps(s: Assistance): (Category, string, string)
  {
    (s.category, s.subject, s.message)
  }

  /** One run of the corrected effect: clean up the previous run, then start
      a timer for the current content, or clear the suggestion when subject
      or message is empty. */
  function Effect(s: Assistance): (r: Assistance)
  {
    var c := s.(timer := None);
    if c.subject != "" && c.message != "" then c.(isTyping := true, timer := Some(Snapshot(c.category, c.subject, c.message)))
    else c.(suggestion := "", isTyping := false)
  }

  function Step(s: Assistance, e: Event): (r: Assistance)
  {
    var t := Apply(s, e);
    if Deps(t) != Deps(s) then Effect(t) else t
  }

  /** What the corrected effect maintains: "analyzing" exactly while a timer
      is pending; a pending timer holds the current content; an empty field
      means no suggestion and no analysis; a shown suggestion is one of the six. */
  ghost predicate Coherent(s: Assistance)
  {
    && (s.isTyping <==> s.timer.Some?)
    && (s.timer.Some? ==> s.timer.value == Snapshot(s.category, s.subject, s.message))
    && (s.subject == "" || s.message == "" ==> s.suggestion == "" && !s.isTyping)
    && (s.suggestion == "" || s.suggestion in Suggestions)
  }

  lemma InitialCoherent()
    ensures Coherent(InitialAssistance)
  {
  }

  lemma StepKeepsCoherent(s: Assistance, e: Event)
    requires Coherent(s)
    ensures Coherent(Step(s, e))
  {
  }

  /** When the timer fires, the suggestion shown is the one for the content
      the form holds at that moment, never a stale one. */
  lemma SuggestionMatchesContent(s: Assistance)
    requires Coherent(s) && s.isTyping
    ensures Step(s, SuggestionTimer).suggestion == Suggest(s.category, s.subject, s.message)
    ensures !Step(s, SuggestionTimer).isTyping
  {
  }

  function Run(s: Assistance, events: seq<Event>): (r: Assistance)
    decreases |events|
  {
    if events == [] then s else Run(Step(s, events[0]), events[1..])
  }

  /** Any sequence of edits from the initial form keeps it coherent. */
  lemma {:induction false} RunKeepsCoherent(s: Assistance, events: seq<Event>)
    requires Coherent(s)
    ensures Coherent(Run(s, events))
    decreases |events|
  {
    if events != [] {
      StepKeepsCoherent(s, events[0]);
      RunKeepsCoherent(Step(s, events[0]), events[1..]);
    }
  }

  /** The same three steps with the corrected effect show the suggestion. */
  lemma CorrectedShowsSuggestion()
    ensures Run(InitialAssistance, [EditSubject("Pricing"), EditMessage("How much?"), SuggestionTimer]).suggestion == MoreDetails
    ensures !Run(InitialAssistance, [EditSubject("Pricing"), EditMessage("How much?"), SuggestionTimer]).isTyping
  {
    var events := [EditSubject("Pricing"), EditMessage("How much?"), SuggestionTimer];
    var s1 := Step(InitialAssistance, events[0]);
    var s2 := Step(s1, events[1]);
    var s3 := Step(s2, events[2]);
    assert s2.timer == Some(Snapshot(Client, "Pricing", "How much?"));
    assert s3.suggestion == MoreDetails;
    assert events[1..][1..][1..] == [];
  }

  // ---------------------------------------------------------------------------
  // The form component, with the corrected suggestion effect.

  class Form {
    var category: Category
    var name: string
    var email: string
    var subject: string
    var message: string
    var aiSuggestion: string
    var isTyping: bool
    /** The pending suggestion timer and the content it computes from. */
    var timer: Option<Snapshot>
    var submitted: bool
    /** Reset timers set by submissions and not yet fired. */
    var pendingResets: nat

    function Assist(): (r: Assistance)
      reads this
    {
      Assistance(category, subject, message, isTyping, aiSuggestion, timer)
    }

    ghost predicate Valid()
      reads this
    {
      Coherent(Assist())
    }

    constructor ()
      ensures Valid()
      ensures Assist() == InitialAssistance
      ensures name == "" && email == "" && !submitted && pendingResets == 0
    {
      category := Client;
      name, email, subject, message := "", "", "", "";
      aiSuggestion, isTyping, timer := "", false, None;
      submitted, pendingResets := false, 0;
    }

    /** One run of the effect, after its dependencies changed. */
    method RunEffect()
      modifies this`aiSuggestion, this`isTyping, this`timer
      ensures Assist() == Effect(old(Assist()))
    {
      timer := None;
      if subject != "" && message != "" {
        isTyping := true;
        timer := Some(Snapshot(category, subject, message));
      } else {
        aiSuggestion := "";
        isTyping := false;
      }
    }

    method EditName(value: string)
      modifies this`name
      ensures name == value
    {
      name := value;
    }

    method EditEmail(value: string)
      modifies this`email
      ensures email == value
    {
      email := value;
    }

    method EditSubject(value: string)
      requires Valid()
      modifies this`subject, this`aiSuggestion, this`isTyping, this`timer
      ensures Valid()
      ensures Assist() == Step(old(Assist()), Event.EditSubject(value))
      ensures subject == value
    {
      StepKeepsCoherent(Assist(), Event.EditSubject(value));
      if value != subject {
        subject := value;
        RunEffect();
      }
    }

    method EditMessage(value: string)
      requires Valid()
      modifies this`message, this`aiSuggestion, this`isTyping, this`timer
      ensures Valid()
      ensures Assist() == Step(old(Assist()), Event.EditMessage(value))
      ensures message == value
    {
      StepKeepsCoherent(Assist(), Event.EditMessage(value));
      if value != message {
        message := value;
        RunEffect();
      }
    }

    method PickCategory(value: Category)
      requires Valid()
      modifies this`category, this`aiSuggestion, this`isTyping, this`timer
      ensures Valid()
      ensures Assist() == Step(old(Assist()), Event.PickCategory(value))
      ensures category == value
    {
      StepKeepsCoherent(Assist(), Event.PickCategory(value));
      if value != category {
        category := value;
        RunEffect();
      }
    }

    /** The suggestion timer fires: the suggestion for the current content
        is shown and the analysis ends. */
    method SuggestionDue()
      requires Valid() && timer.Some?
      modifies this`aiSuggestion, this`isTyping, this`timer
      ensures Valid()
      ensures Assist() == Step(old(Assist()), SuggestionTimer)
      ensures aiSuggestion == Suggest(category, subject, message) && !isTyping && timer == None
    {
      StepKeepsCoherent(Assist(), SuggestionTimer);
      SuggestionMatchesContent(Assist());
      aiSuggestion := Suggest(timer.value.category, timer.value.subject, timer.value.message);
      isTyping := false;
      timer := None;
    }

    /** `handleSubmit`: mark the form submitted and set the reset timer. */
    method Submit()
      modifies this`submitted, this`pendingResets
      ensures submitted && pendingResets == old(pendingResets) + 1
    {
      submitted := true;
      pendingResets := pendingResets + 1;
    }

    /** A reset timer fires: category back to client, the four text fields
        emptied, the submitted mark cleared; the suggestion effect then sees
        the emptied fields. */
    method ResetDue()
      requires Valid() && pendingResets > 0
      modifies this
      ensures Valid()
      ensures Assist() == Step(old(Assist()), ResetFields)
      ensures category == Client && name == "" && email == "" && subject == "" && message == ""
      ensures !submitted && pendingResets == old(pendingResets) - 1
      ensures aiSuggestion == "" && !isTyping && timer == None
    {
      StepKeepsCoherent(Assist(), ResetFields);
      var before := Deps(Assist());
      category, name, email, subject, message := Client, "", "", "", "";
      submitted := false;
      pendingResets := pendingResets - 1;
      if Deps(Assist()) != before {
        RunEffect();
      }
    }
  }
}
