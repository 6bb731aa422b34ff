/**
 * The values the chat components share: the assistant's mood labels and
 * the chat message record (`interface Message` of the chat, history and
 * analytics components).
 */
module Messages {
  import opened Wrappers

  /** The mood union `'neutral' | 'happy' | 'thinking' | 'excited' | 'focused'`. */
  datatype Mood = Neutral | Happy | Thinking | Excited | Focused

  /** The string literal a mood stands for. */
  function MoodName(m: Mood): (s: string)
    ensures |s| > 0
  {
    match m
    case Neutral => "neutral"
    case Happy => "happy"
    case Thinking => "thinking"
    case Excited => "excited"
    case Focused => "focused"
  }

  /** Distinct moods have distinct names, so a mood can be read back from its name. */
  lemma MoodNameInjective(m1: Mood, m2: Mood)
    ensures MoodName(m1) == MoodName(m2) <==> m1 == m2
  {
  }

  /**
   * One chat message. `id` and `timestamp` come from the clock and are
   * opaque here; `mood`, `confidence` and `processingTime` are the optional
   * fields only assistant replies of the advanced chat fill in.
   */
  datatype Message = Message(
    id: string,
    text: string,
    isUser: bool,
    timestamp: string,
    mood: Option<string>,
    confidence: Option<real>,
    processingTime: Option<real>)

  /** The message `handleSendMessage` creates for the user's text. */
  function UserMessage(id: string, text: string, timestamp: string): (m: Message)
    ensures m.isUser && m.text == text
    ensures m.mood == None && m.confidence == None && m.processingTime == None
  {
    Message(id, text, true, timestamp, None, None, None)
  }

  /** A plain assistant message: no mood, confidence or processing time. */
  function AssistantMessage(id: string, text: string, timestamp: string): (m: Message)
    ensures !m.isUser && m.text == text
    ensures m.mood == None && m.confidence == None && m.processingTime == None
  {
    Message(id, text, false, timestamp, None, None, None)
  }
}
