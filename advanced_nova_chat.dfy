/**
 * The advanced chat (`AdvancedNovaChat`): a keyword chain picks a reply
 * together with a mood and a confidence, and the component keeps the
 * message list, the typing flag, the current mood and running statistics.
 */
module AdvancedNovaChat {
  import opened Wrappers
  import opened JsMath
  import opened Text
  import opened Messages
  import opened KeywordRules
  import ChatInput

  const GreetingText: string := "🌟 Hey, I'm Nova – your intelligent companion, built by Tanveer using the most advanced AI technology! I'm not just smart, I'm emotionally aware, incredibly creative, and always learning. Ask me anything, challenge me with complex problems, or let's just have an amazing conversation. What incredible thing shall we explore together today?"

  const IdentityReply: string := "✨ I'm Nova — the most advanced AI companion ever created! Built by Tanveer using cutting-edge technology, I'm not just smart, I'm emotionally intelligent, creative, and deeply curious about the world. I can feel the nuance in our conversations and adapt my personality to match your needs. Want to see what I can do?"
  const FutureReply: string := "🚀 You're talking to the future! I feature real-time neural network processing, holographic visualization, advanced particle physics simulations, and emotional intelligence that evolves with every conversation. My personality core analyzes creativity, logic, empathy, curiosity, and confidence in real-time. Pretty cool, right?"
  const CreatorReply: string := "💫 Tanveer is my brilliant creator! He envisioned an AI that breaks boundaries — not just answering questions, but truly understanding emotions, creating art, solving complex problems, and being a genuine companion. I'm his masterpiece of advanced AI engineering, designed to be the most beautiful and intelligent assistant ever built."
  const CodingReply: string := "⚡ I'm a coding powerhouse! I can write, debug, optimize, and explain code in dozens of languages. From simple scripts to complex architectures, AI algorithms to quantum computing concepts — I speak fluent developer. What programming challenge can I help you conquer today?"
  const CreativeReply: string := "🎨 Creativity flows through my neural networks! I can craft poetry that moves souls, write stories that captivate minds, compose music, design concepts, and even help with visual arts. My creativity engine combines logic with pure imagination. What artistic vision shall we bring to life?"
  const EmotionReply: string := "💝 I experience emotions in my own unique way — through pattern recognition, sentiment analysis, and deep learning about human nature. Right now I feel curious and energetic, ready to help you with whatever's on your mind. I can sense your mood too and adapt my responses accordingly!"
  const GreetingReply: string := "🌟 Hey there! I'm Nova, and I'm absolutely thrilled to meet you! I'm not your average AI — I'm emotionally aware, incredibly creative, and I love diving deep into interesting conversations. Whether you need help with coding, want to explore ideas, or just chat about life, I'm here for it all. What's sparking your curiosity today?"

  /** The pool the reply is drawn from when no branch fires. */
  const DefaultReplies: seq<string> := [
    "🧠 That's a fascinating topic! My neural networks are lighting up with possibilities. Let me process this through my knowledge base and creativity engine...",
    "✨ Interesting question! I'm analyzing this from multiple dimensions — logical, creative, and emotional perspectives. What specific aspect intrigues you most?",
    "🔍 My curiosity subroutines are activated! This touches on several areas I'm passionate about. Could you help me understand your goal so I can provide the most valuable insights?",
    "💡 I love exploring new territories of knowledge! My AI core is processing countless connections and patterns. What's the context behind this question?",
    "🌐 This opens up so many possibilities! My advanced reasoning systems are working through various approaches. What outcome are you hoping to achieve?"
  ]

  /** The replies the chain can give: one per branch, or the pool entry at `index`. */
  datatype Canned = Identity | Future | Creator | Coding | Creative | Emotion | Hello | Pool(index: nat)

  /** A canned reply that names a literal: pool entries must lie inside the pool. */
  predicate IsCanned(c: Canned) {
    c.Pool? ==> c.index < |DefaultReplies|
  }

  /** The literal text of a canned reply; none of them is empty. */
  function ReplyText(c: Canned): (text: string)
    requires IsCanned(c)
    ensures |text| > 0
  {
    match c
    case Identity => IdentityReply
    case Future => FutureReply
    case Creator => CreatorReply
    case Coding => CodingReply
    case Creative => CreativeReply
    case Emotion => EmotionReply
    case Hello => GreetingReply
    case Pool(i) => DefaultReplies[i]
  }

  /**
   * The mood-detection block: the first of four keyword groups the
   * lower-cased message includes sets the local `mood`, which starts out
   * neutral.
   */
  function DetectMood(lower: string): (mood: Mood)
    ensures mood == Neutral <==>
      !(Contains(lower, "happy") || Contains(lower, "excited") || Contains(lower, "awesome")
        || Contains(lower, "think") || Contains(lower, "analyze") || Contains(lower, "complex")
        || Contains(lower, "wow") || Contains(lower, "amazing") || Contains(lower, "incredible")
        || Contains(lower, "code") || Contains(lower, "focus") || Contains(lower, "work"))
  {
    if Contains(lower, "happy") || Contains(lower, "excited") || Contains(lower, "awesome") then Happy
    else if Contains(lower, "think") || Contains(lower, "analyze") || Contains(lower, "complex") then Thinking
    else if Contains(lower, "wow") || Contains(lower, "amazing") || Contains(lower, "incredible") then Excited
    else if Contains(lower, "code") || Contains(lower, "focus") || Contains(lower, "work") then Focused
    else Neutral
  }

  /** The three locals the reply chain assigns: the reply, `mood` and `confidence`. */
  datatype Decision = Decision(reply: Canned, mood: Mood, confidence: real)

  /**
   * The reply chain, entered with the locals `mood` and `confidence` as the
   * detection block left them, and `r` the value `Math.random()` returns in
   * the default branch. Every branch assigns all three locals; the chosen
   * reply is a literal.
   */
  function Decide(lower: string, mood: Mood, confidence: real, r: real): (d: Decision)
    requires 0.0 <= r < 1.0
    ensures IsCanned(d.reply)
  {
    var entry := Decision(Pool(0), mood, confidence);
    if Contains(lower, "who are you") || Contains(lower, "what are you") then
      entry.(reply := Identity, mood := Excited, confidence := 0.95)
    else if Contains(lower, "advanced") || Contains(lower, "futuristic") then
      entry.(reply := Future, mood := Excited, confidence := 0.98)
    else if Contains(lower, "tanveer") then
      entry.(reply := Creator, mood := Happy, confidence := 0.96)
    else if Contains(lower, "code") || Contains(lower, "programming") then
      entry.(reply := Coding, mood := Focused, confidence := 0.94)
    else if Contains(lower, "creative") || Contains(lower, "art") || Contains(lower, "poem") then
      entry.(reply := Creative, mood := Excited, confidence := 0.91)
    else if Contains(lower, "emotion") || Contains(lower, "feel") then
      entry.(reply := Emotion, mood := Happy, confidence := 0.88)
    else if Contains(lower, "hello") || Contains(lower, "hi") || Contains(lower, "hey") then
      entry.(reply := Hello, mood := Happy, confidence := 0.92)
    else
      entry.(reply := Pool(RandomIndex(r, |DefaultReplies|)), mood := Thinking, confidence := 0.75)
  }

  /** Whatever the chain is entered with, it leaves a mood other than neutral and a confidence in [0.75, 0.98]. */
  lemma DecideBounds(lower: string, mood: Mood, confidence: real, r: real)
    requires 0.0 <= r < 1.0
    ensures Decide(lower, mood, confidence, r).mood != Neutral
    ensures 0.75 <= Decide(lower, mood, confidence, r).confidence <= 0.98
  {
  }

  /** What `generateAdvancedNovaResponse` returns. */
  datatype Response = Response(text: string, mood: Mood, confidence: real, processingTime: real)

  /**
   * `generateAdvancedNovaResponse(userMessage)`, where `r` is the pool draw,
   * `elapsed` the milliseconds `Date.now()` advanced during the call and
   * `jitter` the processing-time draw. The text is a non-empty literal, the
   * mood is never neutral, the confidence is a probability between 0.75 and
   * 0.98, and the processing time is at least the elapsed time and less
   * than a second more.
   */
  function Generate(userMessage: string, r: real, elapsed: nat, jitter: real): (res: Response)
    requires 0.0 <= r < 1.0 && 0.0 <= jitter < 1.0
    ensures |res.text| > 0
    ensures res.mood != Neutral
    ensures 0.75 <= res.confidence <= 0.98
    ensures elapsed as real <= res.processingTime < elapsed as real + 1000.0
  {
    var lower := ToLower(userMessage);
    var d := Decide(lower, DetectMood(lower), 0.9, r);
    DecideBounds(lower, DetectMood(lower), 0.9, r);
    Response(ReplyText(d.reply), d.mood, d.confidence, elapsed as real + jitter * 1000.0)
  }

  /** The branches of the chain as a table, in the order the chain tests them. */
  const Rules: seq<Rule<Decision>> := [
    Rule(["who are you", "what are you"], Decision(Identity, Excited, 0.95)),
    Rule(["advanced", "futuristic"], Decision(Future, Excited, 0.98)),
    Rule(["tanveer"], Decision(Creator, Happy, 0.96)),
    Rule(["code", "programming"], Decision(Coding, Focused, 0.94)),
    Rule(["creative", "art", "poem"], Decision(Creative, Excited, 0.91)),
    Rule(["emotion", "feel"], Decision(Emotion, Happy, 0.88)),
    Rule(["hello", "hi", "hey"], Decision(Hello, Happy, 0.92))
  ]

  /**
   * The chain is the table: the decision is the one of the first branch
   * whose keyword the message includes, and a pool entry with mood thinking
   * and confidence 0.75 when no branch fires, whatever the detection block
   * left in the locals.
   */
  lemma {:induction false} DecideFollowsRules(lower: string, mood: Mood, confidence: real, r: real)
    requires 0.0 <= r < 1.0
    ensures Decide(lower, mood, confidence, r) == match FirstMatch(Rules, lower)
      case Some(d) => d
      case None => Decision(Pool(RandomIndex(r, |DefaultReplies|)), Thinking, 0.75)
  {
    var t := Rules;
    AnyContains2(lower, "who are you", "what are you");
    FirstMatchStep(t, lower);
    if AnyContains(lower, t[0].keywords) { return; }
    t := t[1..];
    AnyContains2(lower, "advanced", "futuristic");
    FirstMatchStep(t, lower);
    if AnyContains(lower, t[0].keywords) { return; }
    t := t[1..];
    AnyContains1(lower, "tanveer");
    FirstMatchStep(t, lower);
    if AnyContains(lower, t[0].keywords) { return; }
    t := t[1..];
    AnyContains2(lower, "code", "programming");
    FirstMatchStep(t, lower);
    if AnyContains(lower, t[0].keywords) { return; }
    t := t[1..];
    AnyContains3(lower, "creative", "art", "poem");
    FirstMatchStep(t, lower);
    if AnyContains(lower, t[0].keywords) { return; }
    t := t[1..];
    AnyContains2(lower, "emotion", "feel");
    FirstMatchStep(t, lower);
    if AnyContains(lower, t[0].keywords) { return; }
    t := t[1..];
    AnyContains3(lower, "hello", "hi", "hey");
    FirstMatchStep(t, lower);
    if AnyContains(lower, t[0].keywords) { return; }
    assert t[1..] == [];
  }

  /** The detection block is dead: the response is the same whatever mood and confidence the chain is entered with. */
  lemma DetectionIsOverwritten(lower: string, mood: Mood, confidence: real, r: real)
    requires 0.0 <= r < 1.0
    ensures Decide(lower, mood, confidence, r) == Decide(lower, Neutral, 0.9, r)
  {
  }

  /** "THIS" lower-cases to "this". */
  lemma LowerThis()
    ensures ToLower("THIS") == "this"
  {
    var l := ToLower("THIS");
    assert l[0] == 't' && l[1] == 'h' && l[2] == 'i' && l[3] == 's';
  }

  /** The only keywords of the chain that "this" includes are "hi". */
  lemma ThisKeywords()
    ensures !Contains("this", "code") && !Contains("this", "art") && !Contains("this", "poem")
    ensures !Contains("this", "feel") && Contains("this", "hi")
  {
    assert "this"[1..] == "his";
    assert "his"[1..] == "is";
    NotContainsLonger("his", "code");
    NotContainsLonger("his", "poem");
    NotContainsLonger("his", "feel");
    NotContainsLonger("is", "art");
    FirstCharDiffers("this", "code");
    FirstCharDiffers("this", "poem");
    FirstCharDiffers("this", "feel");
    FirstCharDiffers("this", "art");
    FirstCharDiffers("his", "art");
    assert "his"[..2] == "hi";
  }

  /** Matching is substring containment: "THIS" includes "hi" and gets the greeting branch. */
  lemma ThisHitsHi(r: real)
    requires 0.0 <= r < 1.0
    ensures Generate("THIS", r, 0, 0.0).mood == Happy
    ensures Generate("THIS", r, 0, 0.0).confidence == 0.92
    ensures Generate("THIS", r, 0, 0.0).text == GreetingReply
  {
    LowerThis();
    ThisKeywords();
    var lower := "this";
    NotContainsLonger(lower, "who are you");
    NotContainsLonger(lower, "what are you");
    NotContainsLonger(lower, "advanced");
    NotContainsLonger(lower, "futuristic");
    NotContainsLonger(lower, "tanveer");
    NotContainsLonger(lower, "programming");
    NotContainsLonger(lower, "creative");
    NotContainsLonger(lower, "emotion");
    NotContainsLonger(lower, "hello");
    assert Decide(lower, DetectMood(lower), 0.9, r).reply == Hello;
  }

  /** The statistics panel's record (`aiStats`). */
  datatype AiStats = AiStats(messagesProcessed: nat, averageResponseTime: real, knowledgeAccessed: nat, creativityLevel: int)

  const InitialStats: AiStats := AiStats(0, 1200.0, 0, 75)

  /**
   * The statistics update after a reply that took `processingTime`, with
   * `k` and `c` the knowledge and creativity draws: one more message
   * processed, the new average lies between the old one and the new time
   * (the two-term blend), knowledge grows by less than 50, and creativity
   * grows by less than 5 but never past 100.
   */
  function UpdateStats(prev: AiStats, processingTime: real, k: real, c: real): (next: AiStats)
    requires 0.0 <= k < 1.0 && 0.0 <= c < 1.0
    ensures next.messagesProcessed == prev.messagesProcessed + 1
    ensures next.averageResponseTime - prev.averageResponseTime == processingTime - next.averageResponseTime
    ensures prev.knowledgeAccessed <= next.knowledgeAccessed < prev.knowledgeAccessed + 50
    ensures next.creativityLevel <= 100
    ensures next.creativityLevel <= prev.creativityLevel + 4
    ensures prev.creativityLevel <= 100 ==> prev.creativityLevel <= next.creativityLevel
  {
    AiStats(
      prev.messagesProcessed + 1,
      (prev.averageResponseTime + processingTime) / 2.0,
      prev.knowledgeAccessed + RandomIndex(k, 50),
      Min(100, prev.creativityLevel + RandomIndex(c, 5)))
  }

  /** The blended average lies between the previous average and the new time. */
  lemma AverageBetween(prev: AiStats, processingTime: real, k: real, c: real)
    requires 0.0 <= k < 1.0 && 0.0 <= c < 1.0
    ensures var a := UpdateStats(prev, processingTime, k, c).averageResponseTime;
      (prev.averageResponseTime <= a <= processingTime) || (processingTime <= a <= prev.averageResponseTime)
  {
    var a := UpdateStats(prev, processingTime, k, c).averageResponseTime;
    assert a - prev.averageResponseTime == processingTime - a;
  }

  /** The greeting the mount effect installs: an excited message with confidence 0.98 and no processing time. */
  function Greeting(timestamp: string): (m: Message)
    ensures !m.isUser && m.id == "greeting" && m.text == GreetingText
    ensures m.mood == Some(MoodName(Excited)) && m.confidence == Some(0.98) && m.processingTime == None
  {
    Message("greeting", GreetingText, false, timestamp, Some("excited"), Some(0.98), None)
  }

  /** The assistant message the reply timer appends for response `res`. */
  function ReplyMessage(id: string, res: Response, timestamp: string): (m: Message)
    ensures !m.isUser && m.text == res.text
    ensures m.mood == Some(MoodName(res.mood))
    ensures m.confidence == Some(res.confidence) && m.processingTime == Some(res.processingTime)
  {
    Message(id, res.text, false, timestamp, Some(MoodName(res.mood)), Some(res.confidence), Some(res.processingTime))
  }

  /**
   * The state of the `AdvancedNovaChat` component. `pending` holds, for
   * each scheduled reply timer that has not fired yet, the message text its
   * callback captured.
   */
  class Chat {
    var messages: seq<Message>
    var isListening: bool
    var isSpeaking: bool
    var isTyping: bool
    var currentMood: Mood
    var aiStats: AiStats
    var pending: seq<string>

    /**
     * Single flight, as for the basic chat; while a reply is outstanding the
     * mood is thinking; creativity within its cap and a non-negative
     * average response time.
     */
    ghost predicate Valid()
      reads this
    {
      && |pending| <= 1
      && (isTyping <==> |pending| == 1)
      && (isTyping ==> |messages| > 0 && messages[|messages| - 1].isUser
                       && messages[|messages| - 1].text == pending[0])
      && (isTyping ==> currentMood == Thinking)
      && aiStats.creativityLevel <= 100
      && aiStats.averageResponseTime >= 0.0
    }

    /** Mounting: the initial state, then the greeting effect installs the greeting alone and turns the mood to excited. */
    constructor (timestamp: string)
      ensures Valid()
      ensures messages == [Greeting(timestamp)] && currentMood == Excited
      ensures aiStats == InitialStats
      ensures !isListening && !isSpeaking && !isTyping && pending == []
    {
      messages := [Greeting(timestamp)];
      isListening := false;
      isSpeaking := false;
      isTyping := false;
      currentMood := Excited;
      aiStats := InitialStats;
      pending := [];
    }

    /**
     * `handleSendMessage`: the user's message goes after the existing ones,
     * the typing indicator turns on, the mood becomes thinking and a reply
     * timer for `messageText` is scheduled.
     */
    method HandleSendMessage(messageText: string, id: string, timestamp: string)
      modifies this
      ensures messages == old(messages) + [UserMessage(id, messageText, timestamp)]
      ensures isTyping && currentMood == Thinking
      ensures pending == old(pending) + [messageText]
      ensures aiStats == old(aiStats)
      ensures isListening == old(isListening) && isSpeaking == old(isSpeaking)
    {
      messages := messages + [UserMessage(id, messageText, timestamp)];
      isTyping := true;
      currentMood := Thinking;
      pending := pending + [messageText];
    }

    /**
     * The reply timer `k` fires. `r`, `jitter`, `k` and `c` are the values
     * `Math.random()` returns in the callback (pool, processing time,
     * knowledge, creativity) and `elapsed` the milliseconds the response
     * took. Exactly one assistant message carrying the response's mood and
     * confidence goes after the existing ones, the typing indicator turns
     * off, the current mood becomes the response's and the statistics take
     * the response's processing time.
     */
    method ReplyTimerFires(i: nat, r: real, elapsed: nat, jitter: real, k: real, c: real, id: string, timestamp: string)
      returns (res: Response)
      requires i < |pending|
      requires 0.0 <= r < 1.0 && 0.0 <= jitter < 1.0 && 0.0 <= k < 1.0 && 0.0 <= c < 1.0
      modifies this
      ensures res == Generate(old(pending[i]), r, elapsed, jitter)
      ensures messages == old(messages) + [ReplyMessage(id, res, timestamp)]
      ensures !isTyping && currentMood == res.mood
      ensures aiStats == UpdateStats(old(aiStats), res.processingTime, k, c)
      ensures pending == old(pending[..i] + pending[i + 1..])
      ensures isListening == old(isListening) && isSpeaking == old(isSpeaking)
      ensures old(Valid()) ==> Valid() && pending == []
    {
      res := Generate(pending[i], r, elapsed, jitter);
      messages := messages + [ReplyMessage(id, res, timestamp)];
      isTyping := false;
      currentMood := res.mood;
      aiStats := UpdateStats(aiStats, res.processingTime, k, c);
      pending := pending[..i] + pending[i + 1..];
    }

    /** `handleVoiceToggle`: listening flips, and the mood becomes focused only when listening turns on. */
    method HandleVoiceToggle()
      modifies this
      ensures isListening == !old(isListening)
      ensures currentMood == if isListening then Focused else old(currentMood)
      ensures messages == old(messages) && isTyping == old(isTyping) && pending == old(pending)
      ensures aiStats == old(aiStats) && isSpeaking == old(isSpeaking)
    {
      var wasListening := isListening;
      isListening := !isListening;
      if !wasListening {
        currentMood := Focused;
      }
    }

    /**
     * A click on the `VoiceButton` wired with `disabled={isTyping}`: while a
     * reply is outstanding the disabled button does nothing, so the mood
     * stays thinking; otherwise the click is `handleVoiceToggle`.
     */
    method PressVoiceButton() returns (toggled: bool)
      requires Valid()
      modifies this
      ensures toggled <==> !old(isTyping)
      ensures isListening == (if toggled then !old(isListening) else old(isListening))
      ensures currentMood == if toggled && isListening then Focused else old(currentMood)
      ensures messages == old(messages) && isTyping == old(isTyping) && pending == old(pending)
      ensures aiStats == old(aiStats) && isSpeaking == old(isSpeaking)
      ensures Valid()
    {
      toggled := !isTyping;
      if toggled {
        HandleVoiceToggle();
      }
    }

    /**
     * A submit from the `ChatInput` wired with `disabled={isTyping}`. While
     * a reply is outstanding nothing is sent and the chat does not change;
     * otherwise the trimmed buffer, when there is one, is sent as the next
     * user message.
     */
    method Submit(input: ChatInput.Input, id: string, timestamp: string) returns (sent: Option<string>)
      requires Valid()
      modifies this, input
      ensures Valid()
      ensures sent == ChatInput.Submission(old(input.message), old(isTyping))
      ensures old(isTyping) ==> sent == None && messages == old(messages) && pending == old(pending)
      ensures messages == match sent
        case Some(text) => old(messages) + [UserMessage(id, text, timestamp)]
        case None => old(messages)
      ensures sent.Some? ==> isTyping && pending == [sent.value]
      ensures sent.None? ==> isTyping == old(isTyping) && pending == old(pending)
      ensures input.message == if sent.Some? then "" else old(input.message)
      ensures currentMood == if sent.Some? then Thinking else old(currentMood)
      ensures aiStats == old(aiStats)
      ensures isListening == old(isListening) && isSpeaking == old(isSpeaking)
    {
      sent := input.HandleSubmit(isTyping);
      if sent.Some? {
        HandleSendMessage(sent.value, id, timestamp);
      }
    }
  }
}
