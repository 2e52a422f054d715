/** The chat assistant's keyword intent router: the if/else chain that turns
    a submitted message into a canned reply and, for four of the five
    keyword rules, the page section to scroll to. Both chat assistants carry
    the same chain, character for character, so one function models both. */
module IntentRouter {
  import opened Wrappers
  import opened Text

  /** A canned reply and the anchor the page navigates to, if any. */
  datatype Reply = Reply(text: string, target: Option<string>)

  const AboutReply := Reply("CLUMOSS is at the forefront of artificial intelligence innovation. You can learn more in our About section.", None)
  const SubsidiariesReply := Reply("We have several specialized AI subsidiaries including MistrAI, Cura AI, Lawsuit AI, and more. Check our Subsidiaries section for details.", Some("#subsidiaries"))
  const ContactReply := Reply("You can reach us through our Contact form. I'm taking you there now.", Some("#contact"))
  const SchedulingReply := Reply("You can schedule a demo or consultation through our scheduling section. I'm directing you there now.", Some("#schedule"))
  const DomainsReply := Reply("We serve various domains including AI Research, Medical, Legal, Defense, and more. I'll show you the details.", Some("#domains"))
  const FallbackReply := Reply("Thank you for your message. How else can I assist you with CLUMOSS services? I can help you navigate to different sections or answer questions about our AI solutions.", None)

  /** The router: lower-case the input, then test the keyword groups in a
      fixed order; the first group with a keyword in the input decides. */
  function Route(input: string): (r: Reply)
  {
    var lower := ToLower(input);
    if Includes(lower, "about") || Includes(lower, "who are you") then AboutReply
    else if Includes(lower, "subsidiaries") || Includes(lower, "companies") then SubsidiariesReply
    else if Includes(lower, "contact") || Includes(lower, "talk to") then ContactReply
    else if Includes(lower, "schedule") || Includes(lower, "appointment") || Includes(lower, "meeting") || Includes(lower, "demo") then SchedulingReply
    else if Includes(lower, "domain") || Includes(lower, "industries") then DomainsReply
    else FallbackReply
  }

  // ---------------------------------------------------------------------------
  // An independent reading of the router: a priority table searched for the
  // first rule that fires.

  /** An intent rule: keywords searched in the lower-cased input, and the reply. */
  datatype Rule = Rule(keywords: seq<string>, reply: Reply)

  const Rules: seq<Rule> := [
    Rule(["about", "who are you"], AboutReply),
    Rule(["subsidiaries", "companies"], SubsidiariesReply),
    Rule(["contact", "talk to"], ContactReply),
    Rule(["schedule", "appointment", "meeting", "demo"], SchedulingReply),
    Rule(["domain", "industries"], DomainsReply)
  ]

  /** Some keyword of `rule` occurs in `lower`. */
  predicate Fires(rule: Rule, lower: string)
  {
    exists i :: 0 <= i < |rule.keywords| && Includes(lower, rule.keywords[i])
  }

  /** The position of the first rule of `rules` that fires on `lower`. */
  function FirstMatch(rules: seq<Rule>, lower: string): (r: Option<nat>)
    ensures r.Some? ==> r.value < |rules| && Fires(rules[r.value], lower)
    ensures r.Some? ==> forall j :: 0 <= j < r.value ==> !Fires(rules[j], lower)
    ensures r.None? ==> forall j :: 0 <= j < |rules| ==> !Fires(rules[j], lower)
  {
    if rules == [] then None
    else if Fires(rules[0], lower) then Some(0)
    else match FirstMatch(rules[1..], lower)
      case None => None
      case Some(k) => Some(k + 1)
  }

  /** The reply the priority table gives. */
  function TableRoute(input: string): (r: Reply)
  {
    match FirstMatch(Rules, ToLower(input))
    case Some(k) => Rules[k].reply
    case None => FallbackReply
  }

  // What each rule's keywords amount to.

  lemma FiresAbout(lower: string)
    ensures Fires(Rules[0], lower) <==> Includes(lower, "about") || Includes(lower, "who are you")
  {
    var ks := Rules[0].keywords;
    assert |ks| == 2 && ks[0] == "about" && ks[1] == "who are you";
  }

  lemma FiresSubsidiaries(lower: string)
    ensures Fires(Rules[1], lower) <==> Includes(lower, "subsidiaries") || Includes(lower, "companies")
  {
    var ks := Rules[1].keywords;
    assert |ks| == 2 && ks[0] == "subsidiaries" && ks[1] == "companies";
  }

  lemma FiresContact(lower: string)
    ensures Fires(Rules[2], lower) <==> Includes(lower, "contact") || Includes(lower, "talk to")
  {
    var ks := Rules[2].keywords;
    assert |ks| == 2 && ks[0] == "contact" && ks[1] == "talk to";
  }

  lemma FiresScheduling(lower: string)
    ensures Fires(Rules[3], lower) <==> Includes(lower, "schedule") || Includes(lower, "appointment") || Includes(lower, "meeting") || Includes(lower, "demo")
  {
    var ks := Rules[3].keywords;
    assert |ks| == 4 && ks[0] == "schedule" && ks[1] == "appointment" && ks[2] == "meeting" && ks[3] == "demo";
  }

  lemma FiresDomains(lower: string)
    ensures Fires(Rules[4], lower) <==> Includes(lower, "domain") || Includes(lower, "industries")
  {
    var ks := Rules[4].keywords;
    assert |ks| == 2 && ks[0] == "domain" && ks[1] == "industries";
  }

  /** The if/else chain and the priority table agree on every input. */
  lemma RouteIsFirstMatch(input: string)
    ensures Route(input) == TableRoute(input)
  {
    var lower := ToLower(input);
    FiresAbout(lower);
    FiresSubsidiaries(lower);
    FiresContact(lower);
    FiresScheduling(lower);
    FiresDomains(lower);
  }

  // ---------------------------------------------------------------------------
  // What the router promises.

  lemma RepliesDistinct()
    ensures forall i, j :: 0 <= i < j < |Rules| ==> Rules[i].reply != Rules[j].reply
    ensures forall i :: 0 <= i < |Rules| ==> Rules[i].reply != FallbackReply
  {
  }

  /** Rule `k` answers exactly when it fires and no rule before it does:
      first match wins. */
  lemma RouteSelectsRule(input: string, k: nat)
    requires k < |Rules|
    ensures Route(input) == Rules[k].reply <==>
      Fires(Rules[k], ToLower(input)) && forall j :: 0 <= j < k ==> !Fires(Rules[j], ToLower(input))
  {
    RouteIsFirstMatch(input);
    RepliesDistinct();
  }

  /** The fallback answers exactly the inputs on which no rule fires. */
  lemma RouteFallback(input: string)
    ensures Route(input) == FallbackReply <==> forall j :: 0 <= j < |Rules| ==> !Fires(Rules[j], ToLower(input))
  {
    RouteIsFirstMatch(input);
    RepliesDistinct();
  }

  /** The router navigates unless the About rule answers or no rule fires;
      when it navigates, it goes to the anchor of the rule that answered. */
  lemma RouteNavigation(input: string)
    ensures Route(input).target.None? <==>
      Fires(Rules[0], ToLower(input)) || forall j :: 0 <= j < |Rules| ==> !Fires(Rules[j], ToLower(input))
    ensures Route(input).target.Some? ==>
      exists k :: 1 <= k < |Rules| && Route(input) == Rules[k].reply
  {
    RouteIsFirstMatch(input);
    var r := FirstMatch(Rules, ToLower(input));
    if r.Some? && r.value > 0 {
      assert Route(input) == Rules[r.value].reply;
    }
  }

  /** Routing looks at the input only through its lower-cased form, so two
      inputs that differ only in the case of ASCII letters get the same reply. */
  lemma RouteIgnoresCase(s: string, t: string)
    requires |s| == |t| && forall i :: 0 <= i < |s| ==> Lower(s[i]) == Lower(t[i])
    ensures Route(s) == Route(t)
  {
    assert ToLower(s) == ToLower(t);
  }

  /** "about" anywhere in the input wins over every other keyword. */
  lemma AboutAnywhere(a: string, b: string)
    ensures Route(a + "about" + b) == AboutReply
  {
    ToLowerAppend(a + "about", b);
    ToLowerAppend(a, "about");
    assert ToLower("about") == "about";
    IncludesItself("about");
    IncludesInContext(ToLower(a), "about", ToLower(b), "about");
  }

  /** An input naming both "about" and "contact" gets the About reply. */
  lemma AboutBeforeContact()
    ensures Route("tell me about how to contact you") == AboutReply
    ensures Route("tell me about how to contact you").target == None
  {
    assert "tell me about how to contact you" == "tell me " + "about" + " how to contact you";
    AboutAnywhere("tell me ", " how to contact you");
  }

  /** An input with none of the keywords gets the fallback and no navigation. */
  lemma FallbackExample()
    ensures Route("xyz123") == FallbackReply
    ensures Route("xyz123").target == None
  {
  }

  /** A keyword written in any mix of cases, anywhere in the input, makes
      its rule fire. */
  lemma KeywordFires(a: string, s: string, b: string, k: nat, i: nat)
    requires k < |Rules| && i < |Rules[k].keywords|
    requires ToLower(s) == Rules[k].keywords[i]
    ensures Fires(Rules[k], ToLower(a + s + b))
  {
    ToLowerAppend(a + s, b);
    ToLowerAppend(a, s);
    IncludesItself(ToLower(s));
    IncludesInContext(ToLower(a), ToLower(s), ToLower(b), Rules[k].keywords[i]);
  }

  /** "DEMO" in capitals routes to the scheduling section whenever no
      keyword of the three earlier rules occurs. */
  lemma DemoAnywhere(a: string, b: string)
    requires forall j :: 0 <= j < 3 ==> !Fires(Rules[j], ToLower(a + "DEMO" + b))
    ensures Route(a + "DEMO" + b) == SchedulingReply
    ensures Route(a + "DEMO" + b).target == Some("#schedule")
  {
    assert ToLower("DEMO") == "demo" == Rules[3].keywords[3];
    KeywordFires(a, "DEMO", b, 3, 3);
    RouteSelectsRule(a + "DEMO" + b, 3);
  }
}
