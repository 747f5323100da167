/** The chat page (`Index`): the canned reply table, the conversation session (an
    append-only message log, a waiting flag and the pending 1500 ms reply timers), the
    list of bubbles the page renders, and the page that wires the composer to the
    session. Timers fire as explicit steps; a time label is an opaque string. */
module Conversation {
  import opened Text
  import opened Bubble
  import Input

  // ---------------------------------------------------------------------------
  // The canned replies (`getAIResponse`)
  // ---------------------------------------------------------------------------

  const Greeting := "Hello! How can I assist you today?"
  const HelpReply := "I'm here to help! You can ask me about design, development, creative work, or just about anything else."
  const DesignReply := "I'd be happy to help with design! What kind of design are you working on? UI/UX, graphic design, or something else?"
  const CodeReply := "I can help with code! Do you need help with a specific programming language, framework, or concept?"
  const DefaultReply := "Thanks for your message! I'm a demo AI assistant. In a real implementation, I would generate thoughtful responses based on your queries."

  /** The reply to a user message: the first rule whose keyword occurs in the
      lower-cased message, in the order hello/hi, help, design, code/react; otherwise
      the generic acknowledgement. */
  function AIResponse(message: string): (r: string)
    ensures r in {Greeting, HelpReply, DesignReply, CodeReply, DefaultReply}
  {
    var m := ToLower(message);
    if Contains(m, "hello") || Contains(m, "hi") then Greeting
    else if Contains(m, "help") then HelpReply
    else if Contains(m, "design") then DesignReply
    else if Contains(m, "code") || Contains(m, "react") then CodeReply
    else DefaultReply
  }

  /** One row of a keyword table: any of the keywords selects the reply. */
  datatype Rule = Rule(keywords: seq<string>, reply: string)

  /** The reply table as data, in the order the rules are tried. */
  const Rules: seq<Rule> := [GreetingRule, HelpRule, DesignRule, CodeRule]

  const GreetingRule := Rule(["hello", "hi"], Greeting)
  const HelpRule := Rule(["help"], HelpReply)
  const DesignRule := Rule(["design"], DesignReply)
  const CodeRule := Rule(["code", "react"], CodeReply)

  predicate Matches(rule: Rule, m: string) {
    exists k | k in rule.keywords :: Contains(m, k)
  }

  /** A generic first-match-wins evaluator for a keyword table. */
  function FirstMatch(rules: seq<Rule>, m: string, default: string): string {
    if rules == [] then default
    else if Matches(rules[0], m) then rules[0].reply
    else FirstMatch(rules[1..], m, default)
  }

  /** `AIResponse` is the first-match-wins evaluation of the ordered table on the
      lower-cased message. */
  lemma AIResponseIsFirstMatch(message: string)
    ensures AIResponse(message) == FirstMatch(Rules, ToLower(message), DefaultReply)
  {
    var m := ToLower(message);
    var r1, r2, r3 := Rules[1..], Rules[2..], Rules[3..];
    assert r1 == [HelpRule, DesignRule, CodeRule] && r2 == [DesignRule, CodeRule] && r3 == [CodeRule];
    assert r3[1..] == [];
    assert Matches(GreetingRule, m) <==> Contains(m, "hello") || Contains(m, "hi");
    assert Matches(HelpRule, m) <==> Contains(m, "help");
    assert Matches(DesignRule, m) <==> Contains(m, "design");
    assert Matches(CodeRule, m) <==> Contains(m, "code") || Contains(m, "react");
    assert FirstMatch(r3, m, DefaultReply) == if Matches(CodeRule, m) then CodeReply else DefaultReply;
    assert FirstMatch(r2, m, DefaultReply) == if Matches(DesignRule, m) then DesignReply else FirstMatch(r3, m, DefaultReply);
    assert FirstMatch(r1, m, DefaultReply) == if Matches(HelpRule, m) then HelpReply else FirstMatch(r2, m, DefaultReply);
  }

  /** Case does not matter: a message and its lower-cased form get the same reply. */
  lemma AIResponseIgnoresCase(message: string)
    ensures AIResponse(ToLower(message)) == AIResponse(message)
  {
    ToLowerIdempotent(message);
  }

  /** Two messages that agree up to ASCII case get the same reply. */
  lemma AIResponseSameUpToCase(a: string, b: string)
    requires ToLower(a) == ToLower(b)
    ensures AIResponse(a) == AIResponse(b)
  {
  }

  /** Matching is by substring: "hi" anywhere in the lower-cased text greets, even
      inside another word. */
  lemma GreetsOnHiAnywhere(message: string, i: nat)
    requires OccursAt(ToLower(message), "hi", i)
    ensures AIResponse(message) == Greeting
  {
    assert i <= |ToLower(message)|;
  }

  /** The greeting rule wins over the help rule ("hello, help me"), "hi" inside "this"
      greets ("this code"), and a text with no keyword gets the acknowledgement. */
  lemma FirstMatchExamples()
    ensures AIResponse("hello, help me") == Greeting
    ensures AIResponse("this code") == Greeting
    ensures AIResponse("xyz") == DefaultReply
  {
    assert OccursAt(ToLower("hello, help me"), "hello", 0);
    assert OccursAt(ToLower("this code"), "hi", 1);
    var m := ToLower("xyz");
    assert m == "xyz";
    forall i: nat | i <= |m| ensures !OccursAt(m, "hi", i) {
      if i == 0 { assert m[0] != 'h'; } else if i == 1 { assert m[1] != 'h'; }
    }
  }

  /** The generic acknowledgement comes back exactly when no keyword occurs. */
  lemma DefaultIffNoKeyword(message: string)
    ensures AIResponse(message) == DefaultReply <==>
      forall k | k in ["hello", "hi", "help", "design", "code", "react"] :: !Contains(ToLower(message), k)
  {
    assert Greeting != DefaultReply && HelpReply != DefaultReply;
    assert DesignReply != DefaultReply && CodeReply != DefaultReply;
  }

  // ---------------------------------------------------------------------------
  // The session
  // ---------------------------------------------------------------------------

  datatype Message = Message(role: Role, content: string, timestamp: string)

  /** Messages alternate user, assistant, user, ... from the start. */
  ghost predicate Alternating(log: seq<Message>) {
    forall i :: 0 <= i < |log| ==> log[i].role == (if i % 2 == 0 then User else Assistant)
  }

  /** Every assistant message is the canned reply to the user message before it. */
  ghost predicate Answered(log: seq<Message>) {
    forall i :: 0 < i < |log| && i % 2 == 1 ==> log[i].content == AIResponse(log[i - 1].content)
  }

  /** A text the composer can forward: non-empty, not starting or ending with
      whitespace. */
  predicate Forwardable(s: string) {
    s != "" && !IsWhitespace(s[0]) && !IsWhitespace(s[|s| - 1])
  }

  /** Every user message is a text the composer can forward. */
  ghost predicate UserTextTrimmed(log: seq<Message>) {
    forall i :: 0 <= i < |log| && i % 2 == 0 ==> Forwardable(log[i].content)
  }

  /** The shape of a session driven only through the composer: when idle, an even
      alternating log of answered pairs and no timer; when waiting, one unanswered user
      message at the end and exactly one timer, which holds that message's text. */
  ghost predicate Settled(log: seq<Message>, waiting: bool, scheduled: seq<string>) {
    Alternating(log) && Answered(log) && UserTextTrimmed(log) &&
    if waiting then |log| % 2 == 1 && scheduled == [log[|log| - 1].content]
    else |log| % 2 == 0 && scheduled == []
  }

  /** A settled session: idle ends on an assistant message (or is empty), waiting ends
      on a user message. */
  lemma SettledEnds(log: seq<Message>, waiting: bool, scheduled: seq<string>)
    requires Settled(log, waiting, scheduled)
    ensures waiting ==> log != [] && log[|log| - 1].role == User
    ensures !waiting && log != [] ==> log[|log| - 1].role == Assistant
  {
    if log != [] {
      assert log[|log| - 1].role == (if (|log| - 1) % 2 == 0 then User else Assistant);
    }
  }

  /** Appending the message of the right role keeps the log alternating. */
  lemma AlternatingAppend(log: seq<Message>, m: Message)
    requires Alternating(log)
    requires m.role == (if |log| % 2 == 0 then User else Assistant)
    ensures Alternating(log + [m])
  {
    var log' := log + [m];
    forall i | 0 <= i < |log'| ensures log'[i].role == (if i % 2 == 0 then User else Assistant) {
      if i < |log| { assert log'[i] == log[i]; }
    }
  }

  /** Appending a user message, or the reply to the last user message, keeps every
      reply answered. */
  lemma AnsweredAppend(log: seq<Message>, m: Message)
    requires Answered(log)
    requires |log| % 2 == 1 ==> m.content == AIResponse(log[|log| - 1].content)
    ensures Answered(log + [m])
  {
    var log' := log + [m];
    forall i | 0 < i < |log'| && i % 2 == 1 ensures log'[i].content == AIResponse(log'[i - 1].content) {
      assert log'[i - 1] == log[i - 1];
      if i < |log| { assert log'[i] == log[i]; }
    }
  }

  /** Appending a reply, or a trimmed non-blank user text, keeps user texts trimmed. */
  lemma TrimmedAppend(log: seq<Message>, m: Message)
    requires UserTextTrimmed(log)
    requires |log| % 2 == 0 ==> Forwardable(m.content)
    ensures UserTextTrimmed(log + [m])
  {
    var log' := log + [m];
    forall i | 0 <= i < |log'| && i % 2 == 0 ensures Forwardable(log'[i].content) {
      if i < |log| { assert log'[i] == log[i]; }
    }
  }

  /** An accepted send from an idle settled session leaves it settled and waiting. */
  lemma SendSettles(log: seq<Message>, scheduled: seq<string>, content: string, timestamp: string)
    requires Settled(log, false, scheduled)
    requires Forwardable(content)
    ensures Settled(log + [Message(User, content, timestamp)], true, scheduled + [content])
  {
    var m := Message(User, content, timestamp);
    AlternatingAppend(log, m);
    AnsweredAppend(log, m);
    TrimmedAppend(log, m);
    var log' := log + [m];
    assert |log'| % 2 == 1 && log'[|log'| - 1] == m;
    assert scheduled + [content] == [log'[|log'| - 1].content];
  }

  /** The reply timer firing on a waiting settled session leaves it settled and idle. */
  lemma ReplySettles(log: seq<Message>, scheduled: seq<string>, timestamp: string)
    requires Settled(log, true, scheduled)
    ensures Settled(log + [Message(Assistant, AIResponse(scheduled[0]), timestamp)], false, scheduled[1..])
  {
    var m := Message(Assistant, AIResponse(scheduled[0]), timestamp);
    AlternatingAppend(log, m);
    AnsweredAppend(log, m);
    TrimmedAppend(log, m);
    assert |log + [m]| % 2 == 0 && scheduled[1..] == [];
  }

  /** The conversation state of `Index`. */
  class Session {
    /** The `messages` state, in order. */
    var messages: seq<Message>
    /** The `isWaitingForResponse` state. */
    var waiting: bool
    /** The texts of the user messages whose reply timers have not fired yet, in the
        order they will fire (all timers have the same 1500 ms delay). */
    var scheduled: seq<string>

    ghost predicate Valid()
      reads this
    {
      Settled(messages, waiting, scheduled)
    }

    constructor ()
      ensures messages == [] && !waiting && scheduled == []
      ensures Valid()
    {
      messages, waiting, scheduled := [], false, [];
    }

    /** `handleSendMessage`: appends the user message, raises the flag and schedules
        the reply. It accepts any text; the composer is what keeps it from being
        called twice. */
    method Send(content: string, timestamp: string)
      modifies this
      ensures messages == old(messages) + [Message(User, content, timestamp)]
      ensures waiting
      ensures scheduled == old(scheduled) + [content]
    {
      messages := messages + [Message(User, content, timestamp)];
      waiting := true;
      scheduled := scheduled + [content];
    }

    /** The earliest reply timer fires: it appends the canned reply to the text it was
        scheduled for and clears the flag. */
    method Reply(timestamp: string)
      requires scheduled != []
      modifies this
      ensures messages == old(messages) + [Message(Assistant, AIResponse(old(scheduled)[0]), timestamp)]
      ensures !waiting
      ensures scheduled == old(scheduled)[1..]
    {
      messages := messages + [Message(Assistant, AIResponse(scheduled[0]), timestamp)];
      waiting := false;
      scheduled := scheduled[1..];
    }
  }

  // ---------------------------------------------------------------------------
  // The rendered thread
  // ---------------------------------------------------------------------------

  /** The props `Index` passes to one `ChatMessage` for a logged message. */
  function MessageProps(m: Message, index: nat): Props {
    Props(m.role, m.content, Some(m.timestamp), None, None, index, None, None)
  }

  /** The typing placeholder shown while a reply is pending. */
  function PlaceholderProps(index: nat): Props {
    Props(Assistant, "", None, Some(true), Some(true), index, None, None)
  }

  /** The bubbles the page renders: nothing for an empty log (the empty-state text is
      shown instead), otherwise one per message and then the placeholder if waiting. */
  function Thread(log: seq<Message>, waiting: bool): (t: seq<Props>)
    ensures log == [] ==> t == []
    ensures log != [] ==> |t| == |log| + (if waiting then 1 else 0)
    ensures forall k :: 0 <= k < |t| ==> t[k].index == k
    ensures forall k :: 0 <= k < |t| && k < |log| ==>
      t[k].role == log[k].role && t[k].content == log[k].content
  {
    if log == [] then []
    else
      seq(|log|, k requires 0 <= k < |log| => MessageProps(log[k], k))
      + (if waiting then [PlaceholderProps(|log|)] else [])
  }

  /** While waiting, the placeholder takes index `|log|`, shows the typing indicator and
      no copy button; it is the last bubble, sitting where the reply will land. */
  lemma PlaceholderRendering(log: seq<Message>)
    requires log != []
    ensures var t := Thread(log, true);
      t[|log|].index == |log| && Render(t[|log|]).body == TypingIndicator
      && !Render(t[|log|]).copyButton
      && Render(t[|log|]).attachment == NoAttachment
  {
  }

  /** On a settled page, a copy button appears exactly on the non-empty assistant
      replies, and every logged message shows its own text. */
  lemma ThreadCopyButtons(log: seq<Message>, waiting: bool, scheduled: seq<string>, k: nat)
    requires Settled(log, waiting, scheduled)
    requires k < |log|
    ensures Render(Thread(log, waiting)[k]).body == Text(log[k].content)
    ensures Render(Thread(log, waiting)[k]).copyButton <==> k % 2 == 1 && log[k].content != ""
  {
    var t := Thread(log, waiting);
    assert t[k] == MessageProps(log[k], k);
  }

  // ---------------------------------------------------------------------------
  // The page: composer wired to the session
  // ---------------------------------------------------------------------------

  class Page {
    const session: Session
    const input: Input.ChatInput

    ghost predicate Valid()
      reads this, session
    {
      session.Valid()
    }

    constructor ()
      ensures Valid() && fresh(session) && fresh(input)
      ensures session.messages == [] && !session.waiting && input.draft == ""
    {
      session := new Session();
      input := new Input.ChatInput();
    }

    /** The user presses the send button: the composer's gate decides, and an accepted
        draft becomes the next user message. The page stays settled. */
    method Submit(timestamp: string) returns (forwarded: Option<string>)
      requires Valid()
      modifies session, input
      ensures Valid()
      ensures forwarded == Input.SendGate(old(input.draft), old(session.waiting))
      ensures forwarded.Some? ==> (session.messages == old(session.messages) + [Message(User, forwarded.value, timestamp)]
        && session.waiting && session.scheduled == old(session.scheduled) + [forwarded.value]
        && input.draft == "" && input.height == None)
      ensures forwarded.None? ==> (session.messages == old(session.messages)
        && session.waiting == old(session.waiting) && session.scheduled == old(session.scheduled)
        && input.draft == old(input.draft) && input.height == old(input.height))
    {
      forwarded := input.HandleSend(session.waiting);
      if forwarded.Some? {
        SendSettles(session.messages, session.scheduled, forwarded.value, timestamp);
        session.Send(forwarded.value, timestamp);
      }
    }

    /** The pending reply timer fires. The page stays settled, and the reply lands at
        the index the placeholder occupied. */
    method ReplyArrives(timestamp: string)
      requires Valid() && session.waiting
      modifies session
      ensures Valid() && !session.waiting
      ensures session.messages == old(session.messages) +
        [Message(Assistant, AIResponse(old(session.messages)[|old(session.messages)| - 1].content), timestamp)]
      ensures session.scheduled == old(session.scheduled)[1..]
    {
      ReplySettles(session.messages, session.scheduled, timestamp);
      session.Reply(timestamp);
    }
  }
}
