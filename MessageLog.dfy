/** The chat's message log: an append-only sequence of messages seeded with
    the assistant's greeting, together with the submissions whose "thinking"
    timers are still outstanding. */
module MessageLog {
  import opened Text
  import opened IntentRouter

  /** A chat message; the clock-based id is not modelled. */
  datatype Message = Message(text: string, fromUser: bool)

  const GreetingText := "Hello! I'm CLUMOSS AI Assistant. How can I help you today?"
  const Greeting := Message(GreetingText, false)

  /** The texts of the user's messages in `log`, oldest first. */
  function UserTexts(log: seq<Message>): (r: seq<string>)
  {
    if log == [] then []
    else UserTexts(log[..|log| - 1]) + (if log[|log| - 1].fromUser then [log[|log| - 1].text] else [])
  }

  /** The texts of the assistant's messages in `log`, oldest first. */
  function AssistantTexts(log: seq<Message>): (r: seq<string>)
  {
    if log == [] then []
    else AssistantTexts(log[..|log| - 1]) + (if log[|log| - 1].fromUser then [] else [log[|log| - 1].text])
  }

  /** The router's reply texts for `inputs`, in the same order. */
  function Responses(inputs: seq<string>): (r: seq<string>)
    ensures |r| == |inputs|
    ensures forall i :: 0 <= i < |inputs| ==> r[i] == Route(inputs[i]).text
  {
    if inputs == [] then [] else Responses(inputs[..|inputs| - 1]) + [Route(inputs[|inputs| - 1]).text]
  }

  /** Every message of `log` is either the user's or the assistant's. */
  lemma {:induction false} LogSplits(log: seq<Message>)
    ensures |UserTexts(log)| + |AssistantTexts(log)| == |log|
    decreases |log|
  {
    if log != [] {
      LogSplits(log[..|log| - 1]);
    }
  }

  lemma AppendMessage(log: seq<Message>, m: Message)
    ensures UserTexts(log + [m]) == UserTexts(log) + (if m.fromUser then [m.text] else [])
    ensures AssistantTexts(log + [m]) == AssistantTexts(log) + (if m.fromUser then [] else [m.text])
  {
    assert (log + [m])[..|log|] == log;
  }

  /** The log as the session keeps it, given the submissions `pending` whose
      replies are still to come (oldest first): it starts with the greeting;
      the pending texts are the latest user messages; and after the greeting
      the assistant has answered every earlier user message, in order, with
      the router's reply to that very message. */
  ghost predicate Consistent(log: seq<Message>, pending: seq<string>)
  {
    var users := UserTexts(log);
    && |log| >= 1 && log[0] == Greeting
    && |pending| <= |users|
    && users[|users| - |pending|..] == pending
    && AssistantTexts(log) == [GreetingText] + Responses(users[..|users| - |pending|])
  }

  lemma InitialConsistent()
    ensures Consistent([Greeting], [])
  {
    assert [Greeting] == [] + [Greeting];
    AppendMessage([], Greeting);
  }

  /** A submission appends the user's message and queues its reply. */
  lemma SubmitKeepsConsistent(log: seq<Message>, pending: seq<string>, text: string)
    requires Consistent(log, pending)
    ensures Consistent(log + [Message(text, true)], pending + [text])
  {
    var users := UserTexts(log);
    AppendMessage(log, Message(text, true));
    var users' := users + [text];
    assert users'[..|users'| - |pending + [text]|] == users[..|users| - |pending|];
    assert users'[|users'| - |pending + [text]|..] == users[|users| - |pending|..] + [text];
  }

  /** The oldest pending reply arrives: the assistant's message answers the
      oldest unanswered submission. */
  lemma ReplyKeepsConsistent(log: seq<Message>, pending: seq<string>)
    requires Consistent(log, pending) && pending != []
    ensures Consistent(log + [Message(Route(pending[0]).text, false)], pending[1..])
  {
    var users := UserTexts(log);
    var reply := Message(Route(pending[0]).text, false);
    AppendMessage(log, reply);
    var n := |users| - |pending|;
    assert users[n] == pending[0] by {
      assert users[n..][0] == users[n];
    }
    assert users[..n + 1] == users[..n] + [pending[0]];
    assert Responses(users[..n + 1]) == Responses(users[..n]) + [Route(pending[0]).text];
    assert users[n + 1..] == users[n..][1..];
  }

  /** Once no reply is pending, there is exactly one assistant message per
      user message, plus the greeting. */
  lemma AllAnswered(log: seq<Message>)
    requires Consistent(log, [])
    ensures |AssistantTexts(log)| == |UserTexts(log)| + 1
    ensures |log| == 2 * |UserTexts(log)| + 1
  {
    LogSplits(log);
  }

  /** No user message in `log` is blank. */
  ghost predicate NoBlankSubmission(log: seq<Message>)
  {
    forall t :: t in UserTexts(log) ==> !IsBlank(t)
  }

  lemma InitialNoBlank()
    ensures NoBlankSubmission([Greeting])
  {
    assert [Greeting][..0] == [];
  }

  lemma AppendKeepsNoBlank(log: seq<Message>, m: Message)
    requires NoBlankSubmission(log)
    requires m.fromUser ==> !IsBlank(m.text)
    ensures NoBlankSubmission(log + [m])
  {
    AppendMessage(log, m);
  }
}
