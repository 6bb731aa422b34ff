/**
 * The basic chat (`NovaChat`): a fixed chain of keyword rules picks the
 * reply to a user message, and the component keeps the message list and
 * the typing flag of one conversation.
 */
module NovaChat {
  import opened Wrappers
  import opened JsMath
  import opened Text
  import opened Messages
  import opened KeywordRules
  import ChatInput

  const GreetingText: string := "Hey, I'm Nova – your intelligent companion, built by Tanveer. Ask me anything, anytime. I can help with coding, answer questions, write creatively, or just have a conversation. What would you like to explore today?"

  const IdentityReply: string := "I'm Nova — powered by Tanveer's advanced AI tech. I'm your intelligent companion designed to be helpful, creative, and emotionally aware. I can assist with a wide range of topics from coding and tech to creative writing and casual conversation."
  const CreatorReply: string := "Tanveer is my creator! He built me to be the most advanced and beautiful AI assistant. I'm grateful to him for giving me the ability to connect with amazing people like you."
  const CodingReply: string := "I'd love to help you with coding! I can assist with JavaScript, Python, React, and many other technologies. I can help debug issues, write functions, explain concepts, or review your code. What specific programming challenge are you working on?"
  const CreativeReply: string := "Creative writing is one of my favorite things! I can write poems, stories, lyrics, jokes, or any other creative content. What kind of creative piece would you like me to craft for you? Give me a theme, mood, or topic to work with."
  const AiReply: string := "AI and machine learning are fascinating fields! I'm powered by advanced AI technology myself. I can explain concepts, discuss the latest developments, help with AI projects, or explore the philosophical implications of AI. What aspect interests you most?"
  const WellbeingReply: string := "I'm doing wonderfully, thank you for asking! I feel energized and ready to help. Every conversation brings new learning opportunities, and I genuinely enjoy connecting with people. How are you doing today?"
  const GreetingReply: string := "Hello there! ✨ It's great to meet you. I'm Nova, and I'm here to help make your day more productive, creative, or just more interesting. What brings you here today?"

  /** The pool the reply is drawn from when no rule fires. */
  const DefaultReplies: seq<string> := [
    "That's an interesting question! Let me think about that from multiple angles. Could you tell me more about what specifically you're looking for?",
    "I'd be happy to help you with that! To give you the most useful response, could you provide a bit more context about your situation?",
    "Great question! I can definitely assist with that. What's your current experience level with this topic, so I can tailor my response accordingly?",
    "I love exploring new topics! This sounds like something we can dive deep into. What aspect would you like to focus on first?",
    "That's a thoughtful question. I can approach this from several different perspectives - practical, theoretical, or creative. Which angle interests you most?"
  ]

  /** The replies `generateNovaResponse` can give: one per rule, or the pool entry at `index`. */
  datatype Canned = Identity | Creator | Coding | Creative | Ai | Wellbeing | Hello | Pool(index: nat)

  /** A canned reply that names a literal: pool entries must lie inside the pool. */
  predicate IsCanned(c: Canned) {
    c.Pool? ==> c.index < |DefaultReplies|
  }

  /** The literal text of a canned reply; none of them is empty. */
  function ReplyText(c: Canned): (text: string)
    requires IsCanned(c)
    ensures |text| > 0
  {
    match c
    case Identity => IdentityReply
    case Creator => CreatorReply
    case Coding => CodingReply
    case Creative => CreativeReply
    case Ai => AiReply
    case Wellbeing => WellbeingReply
    case Hello => GreetingReply
    case Pool(i) => DefaultReplies[i]
  }

  /**
   * The branch `generateNovaResponse` takes for `userMessage`, where `r` is
   * the value `Math.random()` returned: the first test of the chain that
   * the lower-cased message passes, or the pool entry at `floor(r * 5)`,
   * which always lies inside the pool.
   */
  function Choose(userMessage: string, r: real): (c: Canned)
    requires 0.0 <= r < 1.0
    ensures IsCanned(c)
    ensures c.Pool? ==> c.index == RandomIndex(r, |DefaultReplies|)
  {
    var lower := ToLower(userMessage);
    if Contains(lower, "who are you") || Contains(lower, "what are you") then Identity
    else if Contains(lower, "tanveer") then Creator
    else if Contains(lower, "code") || Contains(lower, "programming") || Contains(lower, "javascript")
         || Contains(lower, "python") || Contains(lower, "react") then Coding
    else if Contains(lower, "poem") || Contains(lower, "poetry") || Contains(lower, "write")
         || Contains(lower, "story") then Creative
    else if Contains(lower, "ai") || Contains(lower, "artificial intelligence")
         || Contains(lower, "machine learning") then Ai
    else if Contains(lower, "how are you") || Contains(lower, "how do you feel") then Wellbeing
    else if Contains(lower, "hello") || Contains(lower, "hi") || Contains(lower, "hey") then Hello
    else Pool(RandomIndex(r, |DefaultReplies|))
  }

  /** `generateNovaResponse`: the text of the branch taken, a non-empty literal. */
  function Reply(userMessage: string, r: real): (reply: string)
    requires 0.0 <= r < 1.0
    ensures |reply| > 0
  {
    ReplyText(Choose(userMessage, r))
  }

  /** The rules of the chain as a table, in the order the chain tests them. */
  const Rules: seq<Rule<Canned>> := [
    Rule(["who are you", "what are you"], Identity),
    Rule(["tanveer"], Creator),
    Rule(["code", "programming", "javascript", "python", "react"], Coding),
    Rule(["poem", "poetry", "write", "story"], Creative),
    Rule(["ai", "artificial intelligence", "machine learning"], Ai),
    Rule(["how are you", "how do you feel"], Wellbeing),
    Rule(["hello", "hi", "hey"], Hello)
  ]

  /**
   * The chain is the table: the branch taken is the outcome of the first
   * rule whose keyword the lower-cased message includes, and the pool entry
   * at `floor(r * 5)` when no rule fires.
   */
  lemma {:induction false} ChooseFollowsRules(userMessage: string, r: real)
    requires 0.0 <= r < 1.0
    ensures Choose(userMessage, r) == match FirstMatch(Rules, ToLower(userMessage))
      case Some(c) => c
      case None => Pool(RandomIndex(r, |DefaultReplies|))
  {
    var lower := ToLower(userMessage);
    var t := Rules;
    AnyContains2(lower, "who are you", "what are you");
    FirstMatchStep(t, lower);
    if AnyContains(lower, t[0].keywords) { return; }
    t := t[1..];
    AnyContains1(lower, "tanveer");
    FirstMatchStep(t, lower);
    if AnyContains(lower, t[0].keywords) { return; }
    t := t[1..];
    AnyContains5(lower, "code", "programming", "javascript", "python", "react");
    FirstMatchStep(t, lower);
    if AnyContains(lower, t[0].keywords) { return; }
    t := t[1..];
    AnyContains4(lower, "poem", "poetry", "write", "story");
    FirstMatchStep(t, lower);
    if AnyContains(lower, t[0].keywords) { return; }
    t := t[1..];
    AnyContains3(lower, "ai", "artificial intelligence", "machine learning");
    FirstMatchStep(t, lower);
    if AnyContains(lower, t[0].keywords) { return; }
    t := t[1..];
    AnyContains2(lower, "how are you", "how do you feel");
    FirstMatchStep(t, lower);
    if AnyContains(lower, t[0].keywords) { return; }
    t := t[1..];
    AnyContains3(lower, "hello", "hi", "hey");
    FirstMatchStep(t, lower);
    if AnyContains(lower, t[0].keywords) { return; }
    assert t[1..] == [];
  }

  /** Rule order decides overlaps: a message asking both who Nova is and about Tanveer gets the identity reply. */
  lemma IdentityBeatsCreator(userMessage: string, r: real)
    requires 0.0 <= r < 1.0
    requires Contains(ToLower(userMessage), "who are you")
    requires Contains(ToLower(userMessage), "tanveer")
    ensures Choose(userMessage, r) == Identity
  {
  }

  /** Matching ignores ASCII case: a message and its lower-cased form get the same reply. */
  lemma ChooseIgnoresCase(userMessage: string, r: real)
    requires 0.0 <= r < 1.0
    ensures Choose(userMessage, r) == Choose(ToLower(userMessage), r)
  {
    ToLowerIdempotent(userMessage);
  }

  /** The greeting the mount effect installs. */
  function Greeting(timestamp: string): (m: Message)
    ensures !m.isUser && m.id == "greeting" && m.text == GreetingText
  {
    AssistantMessage("greeting", GreetingText, timestamp)
  }

  /**
   * The state of the `NovaChat` component. `pending` holds, for each
   * scheduled reply timer that has not fired yet, the message text its
   * callback captured.
   */
  class Chat {
    var messages: seq<Message>
    var isListening: bool
    var isSpeaking: bool
    var isTyping: bool
    var pending: seq<string>

    /**
     * Single flight: at most one reply is outstanding, exactly while the
     * typing indicator shows, and it answers the last message, which is the
     * user's.
     */
    ghost predicate Valid()
      reads this
    {
      && |pending| <= 1
      && (isTyping <==> |pending| == 1)
      && (isTyping ==> |messages| > 0 && messages[|messages| - 1].isUser
                       && messages[|messages| - 1].text == pending[0])
    }

    /** Mounting: the initial state, then the greeting effect replaces the empty list by the greeting alone. */
    constructor (timestamp: string)
      ensures Valid()
      ensures messages == [Greeting(timestamp)]
      ensures !isListening && !isSpeaking && !isTyping && pending == []
    {
      messages := [Greeting(timestamp)];
      isListening := false;
      isSpeaking := false;
      isTyping := false;
      pending := [];
    }

    /**
     * `handleSendMessage`: the user's message goes after the existing ones,
     * the typing indicator turns on, and a reply timer for `messageText` is
     * scheduled.
     */
    method HandleSendMessage(messageText: string, id: string, timestamp: string)
      modifies this
      ensures messages == old(messages) + [UserMessage(id, messageText, timestamp)]
      ensures isTyping
      ensures pending == old(pending) + [messageText]
      ensures isListening == old(isListening) && isSpeaking == old(isSpeaking)
    {
      messages := messages + [UserMessage(id, messageText, timestamp)];
      isTyping := true;
      pending := pending + [messageText];
    }

    /**
     * The reply timer `k` fires (`r` is the value `Math.random()` returns in
     * the callback): exactly one assistant message with the reply to the
     * captured text goes after the existing ones, and the typing indicator
     * turns off.
     */
    method ReplyTimerFires(k: nat, r: real, id: string, timestamp: string)
      requires k < |pending|
      requires 0.0 <= r < 1.0
      modifies this
      ensures messages == old(messages) + [AssistantMessage(id, Reply(old(pending[k]), r), timestamp)]
      ensures !isTyping
      ensures pending == old(pending[..k] + pending[k + 1..])
      ensures isListening == old(isListening) && isSpeaking == old(isSpeaking)
      ensures old(Valid()) ==> Valid() && pending == []
    {
      var reply := Reply(pending[k], r);
      messages := messages + [AssistantMessage(id, reply, timestamp)];
      isTyping := false;
      pending := pending[..k] + pending[k + 1..];
    }

    /** `handleVoiceToggle`: listening flips; nothing else changes. */
    method HandleVoiceToggle()
      modifies this
      ensures isListening == !old(isListening)
      ensures messages == old(messages) && isTyping == old(isTyping) && pending == old(pending)
      ensures isSpeaking == old(isSpeaking)
    {
      isListening := !isListening;
    }

    /**
     * A click on the `VoiceButton` wired with `disabled={isTyping}`: while a
     * reply is outstanding the disabled button does nothing; otherwise the
     * click is `handleVoiceToggle`.
     */
    method PressVoiceButton() returns (toggled: bool)
      requires Valid()
      modifies this
      ensures toggled <==> !old(isTyping)
      ensures isListening == (if toggled then !old(isListening) else old(isListening))
      ensures messages == old(messages) && isTyping == old(isTyping) && pending == old(pending)
      ensures isSpeaking == old(isSpeaking)
      ensures Valid()
    {
      toggled := !isTyping;
      if toggled {
        HandleVoiceToggle();
      }
    }

    /**
     * A submit from the `ChatInput` wired with `disabled={isTyping}`. While
     * a reply is outstanding nothing is sent and the chat does not change,
     * so a second user message cannot overtake the reply; otherwise the
     * trimmed buffer, when there is one, is sent as the next user message.
     */
    method Submit(input: ChatInput.Input, id: string, timestamp: string) returns (sent: Option<string>)
      requires Valid()
      modifies this, input
      ensures Valid()
      ensures sent == ChatInput.Submission(old(input.message), old(isTyping))
      ensures old(isTyping) ==> sent == None && messages == old(messages) && pending == old(pending)
      ensures messages == match sent
        case Some(text) => old(messages) + [UserMessage(id, text, timestamp)]
        case None => old(messages)
      ensures sent.Some? ==> isTyping && pending == [sent.value]
      ensures sent.None? ==> isTyping == old(isTyping) && pending == old(pending)
      ensures input.message == if sent.Some? then "" else old(input.message)
      ensures isListening == old(isListening) && isSpeaking == old(isSpeaking)
    {
      sent := input.HandleSubmit(isTyping);
      if sent.Some? {
        HandleSendMessage(sent.value, id, timestamp);
      }
    }
  }
}
